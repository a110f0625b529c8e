/**
 * The question lifecycle: submission, payment confirmation, admin status
 * changes and answer publication over the `questions` table, with the
 * `admin_actions` audit log and the outbound notifications as append-only
 * sequences, plus the read paths (single question, listings, statistics).
 */
module QuestionController {
  import opened Wrappers
  import opened Questions
  import opened QuestionQuery
  import opened StripeService

  const SecondsPerHour := 3600

  // ---------------------------------------------------------------- pricing

  /** The pricing variables of the environment; `None` when unset or empty. */
  datatype PricingEnv = PricingEnv(
    urgentPriceCents: Option<int>,
    standardPriceCents: Option<int>,
    urgentSlaHours: Option<int>,
    standardSlaHours: Option<int>)

  const DefaultEnv := PricingEnv(None, None, None, None)

  /** The price of an urgency class: the configured value when one is set, the default otherwise. */
  function PriceCents(env: PricingEnv, u: Urgency): (cents: int)
    ensures u == Urgent && env.urgentPriceCents.Some? ==> cents == env.urgentPriceCents.value
    ensures u == Urgent && env.urgentPriceCents.None? ==> cents == 9900
    ensures u == Standard && env.standardPriceCents.Some? ==> cents == env.standardPriceCents.value
    ensures u == Standard && env.standardPriceCents.None? ==> cents == 4900
  {
    if u == Urgent then env.urgentPriceCents.GetOr(9900) else env.standardPriceCents.GetOr(4900)
  }

  /** The answer deadline of an urgency class in hours, configured or default. */
  function SlaHours(env: PricingEnv, u: Urgency): (hours: int)
    ensures u == Urgent && env.urgentSlaHours.Some? ==> hours == env.urgentSlaHours.value
    ensures u == Urgent && env.urgentSlaHours.None? ==> hours == 6
    ensures u == Standard && env.standardSlaHours.Some? ==> hours == env.standardSlaHours.value
    ensures u == Standard && env.standardSlaHours.None? ==> hours == 24
  {
    if u == Urgent then env.urgentSlaHours.GetOr(6) else env.standardSlaHours.GetOr(24)
  }

  /** With nothing configured: urgent costs 9900 and is due in 6 h, standard 4900 and 24 h. */
  lemma DefaultPricing()
    ensures PriceCents(DefaultEnv, Urgent) == 9900 && SlaHours(DefaultEnv, Urgent) == 6
    ensures PriceCents(DefaultEnv, Standard) == 4900 && SlaHours(DefaultEnv, Standard) == 24
  {
  }

  // ------------------------------------------------------------ submission

  /** The request body; a missing field is the empty string. */
  datatype SubmitBody = SubmitBody(email: string, title: string, details: string, urgency: string)

  datatype SubmitError =
    | MissingFields          // 400
    | InvalidUrgency         // 400
    | PaymentSessionFailed   // 500, the pending row stays
    | SubmitFailed           // 500, the INSERT failed

  datatype SubmitReply = SubmitReply(questionId: string, checkoutUrl: string, sessionId: string)

  /** The identity a bearer token carries. */
  datatype Caller = Caller(id: string, email: string, role: string)

  predicate IsAdmin(c: Caller) { c.role == "admin" }

  /** The checks before anything is stored, in the handler's order. */
  function CheckSubmission(body: SubmitBody): (r: Result<Urgency, SubmitError>)
    ensures r == Err(MissingFields) <==>
              (body.email == "" || body.title == "" || body.details == "" || body.urgency == "")
    ensures r == Err(InvalidUrgency) <==>
              (body.email != "" && body.title != "" && body.details != "" && body.urgency != ""
               && body.urgency != "standard" && body.urgency != "urgent")
    ensures r.Ok? <==>
              (body.email != "" && body.title != "" && body.details != ""
               && (body.urgency == "standard" || body.urgency == "urgent"))
    ensures r.Ok? ==> UrgencyName(r.value) == body.urgency
  {
    if body.email == "" || body.title == "" || body.details == "" || body.urgency == "" then
      Err(MissingFields)
    else
      match ParseUrgency(body.urgency)
      case None => Err(InvalidUrgency)
      case Some(u) => Ok(u)
  }

  function OwnerId(caller: Option<Caller>): Option<string> {
    if caller.Some? then Some(caller.value.id) else None
  }

  /**
   * The row the submit handler inserts, before any session is attached:
   * price and due date come from the urgency class, and the row starts
   * unpaid and unanswered, owned by the caller when one is signed in.
   */
  function NewQuestion(id: string, caller: Option<Caller>, body: SubmitBody, u: Urgency,
                       env: PricingEnv, now: int): (q: Question)
    ensures q.id == id && q.email == body.email && q.title == body.title && q.details == body.details
    ensures q.urgency == u && q.priceCents == PriceCents(env, u)
    ensures q.createdAt == now && q.dueDate - q.createdAt == SlaHours(env, u) * SecondsPerHour
    ensures q.status == PendingPayment && q.paymentStatus == PaymentPending
    ensures q.stripeSessionId.None? && q.answerText.None? && q.answeredAt.None? && q.adminNotes.None?
    ensures q.userId.Some? <==> caller.Some?
    ensures caller.Some? ==> q.userId == Some(caller.value.id)
  {
    Question(id, OwnerId(caller), body.email, body.title, body.details, u,
      PendingPayment, PriceCents(env, u), None, PaymentPending,
      now + SlaHours(env, u) * SecondsPerHour, now, None, None, None)
  }

  /**
   * Whether the `questions.user_id` foreign key admits the row's owner: an
   * anonymous submission stores NULL, a signed-in one the caller's id,
   * which must be a `users` row.
   */
  predicate OwnerRegistered(users: set<string>, caller: Option<Caller>) {
    caller.None? || caller.value.id in users
  }

  // ---------------------------------------------------------------- access

  /** The owner by id, the owner by email, or an admin; never an anonymous caller. */
  predicate CanView(caller: Option<Caller>, q: Question)
    ensures CanView(caller, q) ==> caller.Some?
    ensures caller.Some? && IsAdmin(caller.value) ==> CanView(caller, q)
    ensures caller.Some? && !IsAdmin(caller.value) ==>
      (CanView(caller, q) <==> q.userId == Some(caller.value.id) || q.email == caller.value.email)
  {
    caller.Some? &&
    (q.userId == Some(caller.value.id) || q.email == caller.value.email || IsAdmin(caller.value))
  }

  /** The "my questions" condition for a signed-in caller. */
  function MineQuery(c: Caller): Query {
    Query([OwnedBy(c.id, c.email)])
  }

  /**
   * For a caller who is not an admin, the questions in their own listing
   * are exactly the ones they may open.
   */
  lemma ListedIffViewable(c: Caller, q: Question)
    ensures Satisfies(q, MineQuery(c)) ==> CanView(Some(c), q)
    ensures !IsAdmin(c) && CanView(Some(c), q) ==> Satisfies(q, MineQuery(c))
  {
    assert MineQuery(c).conditions == [OwnedBy(c.id, c.email)];
    assert OwnedBy(c.id, c.email) in MineQuery(c).conditions;
  }

  datatype AccessError = NotFound | AccessDenied   // 404, 403

  // ------------------------------------------------------------ logs

  datatype NotificationKind = Confirmation | AnswerDelivered

  /** One `email_notifications` row: kind, recipient, question. */
  datatype Notification = Notification(kind: NotificationKind, to: string, questionId: string)

  datatype ActionKind = StatusChange | AnswerPublished

  /** The JSON details of an admin action. */
  datatype ActionDetails = NewStatus(status: Status) | AnswerLength(length: nat)

  /** One `admin_actions` row. */
  datatype AdminAction = AdminAction(
    adminId: string,
    kind: ActionKind,
    questionId: string,
    details: ActionDetails,
    createdAt: int)

  datatype ConfirmError =
    | SessionIdRequired      // 400
    | VerificationFailed     // 500, the gateway call failed
    | PaymentNotCompleted    // 400
    | ConfirmFailed          // 500, the named question does not exist

  datatype UpdateError = StatusRequired | InvalidStatus | UpdateFailed
  datatype PublishError = AnswerRequired | PublishFailed

  /** A listing row of `getMyQuestions`. */
  datatype Summary = Summary(
    id: string,
    title: string,
    urgency: Urgency,
    status: Status,
    priceCents: int,
    dueDate: int,
    createdAt: int,
    answeredAt: Option<int>)

  function SummaryOf(q: Question): Summary {
    Summary(q.id, q.title, q.urgency, q.status, q.priceCents, q.dueDate, q.createdAt, q.answeredAt)
  }

  /** The query `getAllQuestions` builds: one condition per supplied filter. */
  method BuildAdminQuery(status: string, urgency: string) returns (query: Query)
    ensures forall q :: Satisfies(q, query) <==>
      (status == "" || StatusName(q.status) == status) && (urgency == "" || UrgencyName(q.urgency) == urgency)
  {
    var conditions: seq<Condition> := [];
    if status != "" {
      conditions := conditions + [StatusIs(status)];
    }
    if urgency != "" {
      conditions := conditions + [UrgencyIs(urgency)];
    }
    query := Query(conditions);
    forall q ensures Satisfies(q, query) <==>
      (status == "" || StatusName(q.status) == status) && (urgency == "" || UrgencyName(q.urgency) == urgency)
    {
      assert status != "" ==> StatusIs(status) in conditions;
      assert urgency != "" ==> UrgencyIs(urgency) in conditions;
    }
  }

  // ------------------------------------------------------------ statistics

  /** What a question contributes to revenue. */
  function Earned(q: Question): int {
    if q.paymentStatus == PaymentSucceeded then q.priceCents else 0
  }

  /** Sum of `price_cents` over the rows in `ks` whose payment succeeded. */
  ghost function PaidTotal(table: map<string, Question>, ks: set<string>): (total: int)
    requires ks <= table.Keys
    ensures ks == {} ==> total == 0
    ensures forall k :: k in ks ==> ks == {k} ==> total == Earned(table[k])
    decreases ks
  {
    if ks == {} then 0 else var k :| k in ks; Earned(table[k]) + PaidTotal(table, ks - {k})
  }

  /** The sum does not depend on the order the rows are visited in. */
  lemma {:induction false} PaidTotalRemove(table: map<string, Question>, ks: set<string>, k: string)
    requires ks <= table.Keys && k in ks
    ensures PaidTotal(table, ks) == Earned(table[k]) + PaidTotal(table, ks - {k})
    decreases ks
  {
    var j :| j in ks && PaidTotal(table, ks) == Earned(table[j]) + PaidTotal(table, ks - {j});
    if j != k {
      PaidTotalRemove(table, ks - {j}, k);
      PaidTotalRemove(table, ks - {k}, j);
      assert ks - {j} - {k} == ks - {k} - {j};
    }
  }

  /** Revenue is 0 when no payment has succeeded. */
  lemma {:induction false} NoPaymentNoRevenue(table: map<string, Question>, ks: set<string>)
    requires ks <= table.Keys
    requires forall k :: k in ks ==> table[k].paymentStatus != PaymentSucceeded
    ensures PaidTotal(table, ks) == 0
    decreases ks
  {
    if ks != {} {
      var k :| k in ks;
      PaidTotalRemove(table, ks, k);
      NoPaymentNoRevenue(table, ks - {k});
    }
  }

  /** Replacing one row changes revenue by the difference in what that row earns. */
  lemma PaidTotalUpdate(table: map<string, Question>, ks: set<string>, k: string, q: Question)
    requires ks <= table.Keys && k in ks
    ensures PaidTotal(table[k := q], ks) == PaidTotal(table, ks) - Earned(table[k]) + Earned(q)
  {
    PaidTotalRemove(table, ks, k);
    PaidTotalRemove(table[k := q], ks, k);
    PaidTotalSame(table, table[k := q], ks - {k});
  }

  lemma {:induction false} PaidTotalSame(a: map<string, Question>, b: map<string, Question>, ks: set<string>)
    requires ks <= a.Keys && ks <= b.Keys
    requires forall k :: k in ks ==> a[k] == b[k]
    ensures PaidTotal(a, ks) == PaidTotal(b, ks)
    decreases ks
  {
    if ks != {} {
      var k :| k in ks;
      PaidTotalRemove(a, ks, k);
      PaidTotalRemove(b, ks, k);
      PaidTotalSame(a, b, ks - {k});
    }
  }

  ghost function WithStatus(table: map<string, Question>, ks: set<string>, st: Status): set<string> {
    set k | k in ks && k in table && table[k].status == st
  }

  lemma CountOneMore(table: map<string, Question>, ks: set<string>, k: string, st: Status)
    requires k in table && k !in ks
    ensures |WithStatus(table, ks + {k}, st)| == |WithStatus(table, ks, st)| + (if table[k].status == st then 1 else 0)
  {
    if table[k].status == st {
      assert WithStatus(table, ks + {k}, st) == WithStatus(table, ks, st) + {k};
    } else {
      assert WithStatus(table, ks + {k}, st) == WithStatus(table, ks, st);
    }
  }

  /** `SELECT COUNT(*) ... WHERE status = ?` */
  method CountWithStatus(table: map<string, Question>, st: Status) returns (n: nat)
    ensures n == |WithStatus(table, table.Keys, st)|
  {
    n := 0;
    var remaining := table.Keys;
    ghost var seen: set<string> := {};
    while remaining != {}
      invariant remaining <= table.Keys && seen == table.Keys - remaining
      invariant n == |WithStatus(table, seen, st)|
      decreases remaining
    {
      var k :| k in remaining;
      CountOneMore(table, seen, k, st);
      n := n + (if table[k].status == st then 1 else 0);
      remaining := remaining - {k};
      seen := seen + {k};
    }
    assert seen == table.Keys;
  }

  /**
   * `SELECT SUM(price_cents) ... WHERE payment_status = 'succeeded'`:
   * NULL (`None`) exactly when no payment succeeded.
   */
  method SumPaid(table: map<string, Question>) returns (sum: Option<int>)
    ensures sum.GetOr(0) == PaidTotal(table, table.Keys)
    ensures sum.None? <==> forall k :: k in table ==> table[k].paymentStatus != PaymentSucceeded
  {
    sum := None;
    var remaining := table.Keys;
    ghost var seen: set<string> := {};
    while remaining != {}
      invariant remaining <= table.Keys && seen == table.Keys - remaining
      invariant sum.GetOr(0) == PaidTotal(table, seen)
      invariant sum.None? <==> forall k :: k in seen ==> table[k].paymentStatus != PaymentSucceeded
      decreases remaining
    {
      var k :| k in remaining;
      PaidTotalRemove(table, seen + {k}, k);
      assert seen + {k} - {k} == seen;
      if table[k].paymentStatus == PaymentSucceeded {
        sum := Some(sum.GetOr(0) + table[k].priceCents);
      }
      remaining := remaining - {k};
      seen := seen + {k};
    }
    assert seen == table.Keys;
  }

  /** The row after a paid confirmation: received and paid, every other column kept. */
  function MarkPaid(q: Question): (r: Question)
    ensures r.status == Received && r.paymentStatus == PaymentSucceeded
    ensures Earned(r) == r.priceCents == q.priceCents
    ensures r.(status := q.status, paymentStatus := q.paymentStatus) == q
  {
    q.(status := Received, paymentStatus := PaymentSucceeded)
  }

  /** The row after an answer is published: answered with this text and time, every other column kept. */
  function WithAnswer(q: Question, text: string, now: int): (r: Question)
    ensures r.status == Answered && r.answerText == Some(text) && r.answeredAt == Some(now)
    ensures Earned(r) == Earned(q)
    ensures r.(status := q.status, answerText := q.answerText, answeredAt := q.answeredAt) == q
  {
    q.(answerText := Some(text), status := Answered, answeredAt := Some(now))
  }

  /** Confirming adds the price to revenue the first time, and nothing afterwards. */
  lemma ConfirmRevenue(table: map<string, Question>, k: string)
    requires k in table
    ensures PaidTotal(table[k := MarkPaid(table[k])], table.Keys) ==
      PaidTotal(table, table.Keys) + (if table[k].paymentStatus == PaymentSucceeded then 0 else table[k].priceCents)
  {
    PaidTotalUpdate(table, table.Keys, k, MarkPaid(table[k]));
  }

  /** Admin status changes and answers leave revenue as it was. */
  lemma AdminChangesKeepRevenue(table: map<string, Question>, k: string, st: Status, text: string, now: int)
    requires k in table
    ensures PaidTotal(table[k := table[k].(status := st)], table.Keys) == PaidTotal(table, table.Keys)
    ensures PaidTotal(table[k := WithAnswer(table[k], text, now)], table.Keys) == PaidTotal(table, table.Keys)
  {
    PaidTotalUpdate(table, table.Keys, k, table[k].(status := st));
    PaidTotalUpdate(table, table.Keys, k, WithAnswer(table[k], text, now));
  }

  /** The counting part of the dashboard. */
  datatype Stats = Stats(total: nat, received: nat, inProgress: nat, answered: nat, revenue: int)

  // ------------------------------------------------------------ the store

  class Controller {
    const gateway: Gateway
    /** The ids of the `users` table, which the foreign keys of `questions` and `admin_actions` refer to. */
    const users: set<string>
    var questions: map<string, Question>
    var actions: seq<AdminAction>
    var notifications: seq<Notification>

    ghost predicate Valid()
      reads this
    {
      WellKeyed(questions)
    }

    constructor (gateway: Gateway, users: set<string>)
      ensures Valid() && this.gateway == gateway && this.users == users
      ensures questions == map[] && actions == [] && notifications == []
    {
      this.gateway := gateway;
      this.users := users;
      questions := map[];
      actions := [];
      notifications := [];
    }

    /**
     * `submitQuestion`: validate, insert a `pending_payment` row, ask the
     * gateway for a session, then record the session id on the row.
     * `questionId` is the fresh uuid and `suffix` the random part of a mock id.
     */
    method SubmitQuestion(body: SubmitBody, caller: Option<Caller>, env: PricingEnv, now: int,
                          questionId: string, suffix: string, frontendUrl: string,
                          providerCreate: CheckoutRequest -> Result<Session, string>)
      returns (r: Result<SubmitReply, SubmitError>)
      requires Valid()
      modifies this, gateway
      ensures Valid()
      ensures actions == old(actions) && notifications == old(notifications)
      ensures CheckSubmission(body).Err? ==>
        r == Err(CheckSubmission(body).error)
        && questions == old(questions) && gateway.mockSessions == old(gateway.mockSessions)
      ensures CheckSubmission(body).Ok? && (questionId in old(questions) || !OwnerRegistered(users, caller)) ==>
        r == Err(SubmitFailed)
        && questions == old(questions) && gateway.mockSessions == old(gateway.mockSessions)
      ensures CheckSubmission(body).Ok? && questionId !in old(questions) && OwnerRegistered(users, caller) ==>
        var q := NewQuestion(questionId, caller, body, CheckSubmission(body).value, env, now);
        var created := CreateOutcome(gateway.useMock, q, suffix, frontendUrl, providerCreate);
        && (created.Err? ==> r == Err(PaymentSessionFailed) && questions == old(questions)[questionId := q])
        && (created.Ok? ==>
              r == Ok(SubmitReply(questionId, created.value.url, created.value.id))
              && questions == old(questions)[questionId := q.(stripeSessionId := Some(created.value.id))])
        && (gateway.useMock ==> gateway.mockSessions == old(gateway.mockSessions)[created.value.id := created.value])
        && (!gateway.useMock ==> gateway.mockSessions == old(gateway.mockSessions))
    {
      var checked := CheckSubmission(body);
      if checked.Err? {
        return Err(checked.error);
      }
      if questionId in questions || !OwnerRegistered(users, caller) {
        // the INSERT violates the primary key, or the `user_id` foreign key
        return Err(SubmitFailed);
      }
      var q := NewQuestion(questionId, caller, body, checked.value, env, now);
      questions := questions[questionId := q];
      var created := gateway.CreateCheckoutSession(questions[questionId], suffix, frontendUrl, providerCreate);
      if created.Err? {
        return Err(PaymentSessionFailed);
      }
      questions := questions[questionId := questions[questionId].(stripeSessionId := Some(created.value.id))];
      r := Ok(SubmitReply(questionId, created.value.url, created.value.id));
    }

    /**
     * `confirmPayment`: re-read the session from the gateway and, when it is
     * paid, mark the question it names as received and paid, whatever its
     * status was, and send the confirmation.
     */
    method ConfirmPayment(sessionId: string, providerRetrieve: string -> Result<Session, string>)
      returns (r: Result<Question, ConfirmError>)
      requires Valid()
      modifies this
      ensures Valid() && actions == old(actions)
      ensures var found := Lookup(gateway.useMock, gateway.mockSessions, sessionId, providerRetrieve);
        if sessionId == "" then
          r == Err(SessionIdRequired) && questions == old(questions) && notifications == old(notifications)
        else if found.Err? then
          r == Err(VerificationFailed) && questions == old(questions) && notifications == old(notifications)
        else if found.value.paymentStatus != "paid" then
          r == Err(PaymentNotCompleted) && questions == old(questions) && notifications == old(notifications)
        else if found.value.questionId !in old(questions) then
          r == Err(ConfirmFailed) && questions == old(questions) && notifications == old(notifications)
        else
          var id := found.value.questionId;
          var q := MarkPaid(old(questions)[id]);
          && questions == old(questions)[id := q]
          && notifications == old(notifications) + [Notification(Confirmation, q.email, id)]
          && r == Ok(q)
    {
      if sessionId == "" {
        return Err(SessionIdRequired);
      }
      var found := gateway.GetCheckoutSession(sessionId, providerRetrieve);
      if found.Err? {
        return Err(VerificationFailed);
      }
      var session := found.value;
      if session.paymentStatus != "paid" {
        return Err(PaymentNotCompleted);
      }
      var id := session.questionId;
      if id in questions {
        questions := questions[id := MarkPaid(questions[id])];
      }
      if id !in questions {
        // the confirmation sender is handed no row and throws
        return Err(ConfirmFailed);
      }
      var q := questions[id];
      notifications := notifications + [Notification(Confirmation, q.email, q.id)];
      r := Ok(q);
    }

    /**
     * Not the source's behaviour: confirmation that leaves a question whose
     * status has already moved on from `pending_payment` as it is and sends
     * nothing, so that confirming twice has the effect of confirming once.
     */
    method ConfirmPaymentOnce(sessionId: string, providerRetrieve: string -> Result<Session, string>)
      returns (r: Result<Question, ConfirmError>)
      requires Valid()
      modifies this
      ensures Valid() && actions == old(actions)
      ensures var found := Lookup(gateway.useMock, gateway.mockSessions, sessionId, providerRetrieve);
        if sessionId == "" || found.Err? || found.value.paymentStatus != "paid"
           || found.value.questionId !in old(questions) then
          r.Err? && questions == old(questions) && notifications == old(notifications)
        else if old(questions)[found.value.questionId].status != PendingPayment then
          r == Ok(old(questions)[found.value.questionId])
          && questions == old(questions) && notifications == old(notifications)
        else
          var id := found.value.questionId;
          var q := MarkPaid(old(questions)[id]);
          && questions == old(questions)[id := q]
          && notifications == old(notifications) + [Notification(Confirmation, q.email, id)]
          && r == Ok(q)
    {
      if sessionId != "" {
        var found := gateway.GetCheckoutSession(sessionId, providerRetrieve);
        if found.Ok? && found.value.paymentStatus == "paid" && found.value.questionId in questions {
          var current := questions[found.value.questionId];
          if current.status != PendingPayment {
            return Ok(current);
          }
        }
      }
      r := ConfirmPayment(sessionId, providerRetrieve);
    }

    /** `getMyQuestions`: the caller's questions by id or email, newest first. */
    method GetMyQuestions(caller: Caller) returns (rows: seq<Summary>)
      requires Valid()
      ensures |rows| == |MatchingIds(questions, MineQuery(caller))|
      ensures forall i :: 0 <= i < |rows| ==>
        rows[i].id in questions && rows[i] == SummaryOf(questions[rows[i].id])
        && (questions[rows[i].id].userId == Some(caller.id) || questions[rows[i].id].email == caller.email)
      ensures forall k ::
        (k in questions && (questions[k].userId == Some(caller.id) || questions[k].email == caller.email))
        ==> SummaryOf(questions[k]) in rows
      ensures forall i, j :: 0 <= i < j < |rows| ==> rows[i].createdAt >= rows[j].createdAt && rows[i].id != rows[j].id
    {
      var query := MineQuery(caller);
      assert query.conditions == [OwnedBy(caller.id, caller.email)];
      var found := SelectRows(questions, query);
      SelectionLength(found, questions, query);
      rows := seq(|found|, i requires 0 <= i < |found| => SummaryOf(found[i]));
      forall k | k in questions && (questions[k].userId == Some(caller.id) || questions[k].email == caller.email)
        ensures SummaryOf(questions[k]) in rows
      {
        assert Holds(questions[k], OwnedBy(caller.id, caller.email));
        var i :| 0 <= i < |found| && found[i] == questions[k];
        assert rows[i] == SummaryOf(questions[k]);
      }
      forall i | 0 <= i < |rows|
        ensures questions[rows[i].id].userId == Some(caller.id) || questions[rows[i].id].email == caller.email
      {
        assert Satisfies(found[i], query);
        assert OwnedBy(caller.id, caller.email) in query.conditions;
      }
    }

    /** `getQuestion`: not found, denied, or the row itself. */
    function GetQuestion(id: string, caller: Option<Caller>): (r: Result<Question, AccessError>)
      reads this
      ensures id !in questions ==> r == Err(NotFound)
      ensures id in questions && !CanView(caller, questions[id]) ==> r == Err(AccessDenied)
      ensures r.Ok? <==> id in questions && CanView(caller, questions[id])
      ensures r.Ok? ==> r.value == questions[id]
    {
      if id !in questions then Err(NotFound)
      else if !CanView(caller, questions[id]) then Err(AccessDenied)
      else Ok(questions[id])
    }

    /** `getAllQuestions` (admin only): rows matching every supplied filter, newest first. */
    method GetAllQuestions(admin: Caller, status: string, urgency: string) returns (rows: seq<Question>)
      requires Valid() && IsAdmin(admin)
      ensures |rows| == |set k | k in questions
        && (status == "" || StatusName(questions[k].status) == status)
        && (urgency == "" || UrgencyName(questions[k].urgency) == urgency)|
      ensures forall i :: 0 <= i < |rows| ==>
        rows[i].id in questions && questions[rows[i].id] == rows[i]
        && (status == "" || StatusName(rows[i].status) == status)
        && (urgency == "" || UrgencyName(rows[i].urgency) == urgency)
      ensures forall k ::
        (k in questions
         && (status == "" || StatusName(questions[k].status) == status)
         && (urgency == "" || UrgencyName(questions[k].urgency) == urgency))
        ==> questions[k] in rows
      ensures NewestFirst(rows) && DistinctIds(rows)
    {
      var query := BuildAdminQuery(status, urgency);
      rows := SelectRows(questions, query);
      SelectionLength(rows, questions, query);
      assert MatchingIds(questions, query) == set k | k in questions
        && (status == "" || StatusName(questions[k].status) == status)
        && (urgency == "" || UrgencyName(questions[k].urgency) == urgency);
    }

    /**
     * `updateQuestionStatus` (admin only): any admin-settable status from
     * any current status, logged as one `status_change`. The UPDATE and the
     * log INSERT are separate statements: when the admin's id is no `users`
     * row the status change stays committed, the INSERT fails, and the
     * request fails without a log entry.
     */
    method UpdateQuestionStatus(admin: Caller, id: string, status: string, now: int)
      returns (r: Result<Question, UpdateError>)
      requires Valid() && IsAdmin(admin)
      modifies this
      ensures Valid() && notifications == old(notifications)
      ensures status == "" ==>
        r == Err(StatusRequired) && questions == old(questions) && actions == old(actions)
      ensures status != "" && ParseAdminStatus(status).None? ==>
        r == Err(InvalidStatus) && questions == old(questions) && actions == old(actions)
      ensures ParseAdminStatus(status).Some? && id !in old(questions) ==>
        r == Err(UpdateFailed) && questions == old(questions) && actions == old(actions)
      ensures ParseAdminStatus(status).Some? && id in old(questions) ==>
        var st := ParseAdminStatus(status).value;
        && questions == old(questions)[id := old(questions)[id].(status := st)]
        && (admin.id in users ==>
              actions == old(actions) + [AdminAction(admin.id, StatusChange, id, NewStatus(st), now)]
              && r == Ok(questions[id]))
        && (admin.id !in users ==> actions == old(actions) && r == Err(UpdateFailed))
    {
      if status == "" {
        return Err(StatusRequired);
      }
      var parsed := ParseAdminStatus(status);
      if parsed.None? {
        return Err(InvalidStatus);
      }
      if id in questions {
        questions := questions[id := questions[id].(status := parsed.value)];
      }
      if id !in questions || admin.id !in users {
        // the admin_actions row violates a foreign key
        return Err(UpdateFailed);
      }
      actions := actions + [AdminAction(admin.id, StatusChange, id, NewStatus(parsed.value), now)];
      r := Ok(questions[id]);
    }

    /**
     * `publishAnswer` (admin only): set the answer, its time and status
     * `answered` together, overwriting any earlier answer; log one
     * `answer_published` and send the answer notification. As for status
     * changes, an admin id that is no `users` row leaves the answer
     * committed and fails the request before logging or notifying.
     */
    method PublishAnswer(admin: Caller, id: string, answerText: string, now: int)
      returns (r: Result<Question, PublishError>)
      requires Valid() && IsAdmin(admin)
      modifies this
      ensures Valid()
      ensures answerText == "" ==>
        r == Err(AnswerRequired)
        && questions == old(questions) && actions == old(actions) && notifications == old(notifications)
      ensures answerText != "" && id !in old(questions) ==>
        r == Err(PublishFailed)
        && questions == old(questions) && actions == old(actions) && notifications == old(notifications)
      ensures answerText != "" && id in old(questions) ==>
        var q := WithAnswer(old(questions)[id], answerText, now);
        && questions == old(questions)[id := q]
        && (admin.id in users ==>
              actions == old(actions) + [AdminAction(admin.id, AnswerPublished, id, AnswerLength(|answerText|), now)]
              && notifications == old(notifications) + [Notification(AnswerDelivered, q.email, id)]
              && r == Ok(q))
        && (admin.id !in users ==>
              actions == old(actions) && notifications == old(notifications) && r == Err(PublishFailed))
    {
      if answerText == "" {
        return Err(AnswerRequired);
      }
      if id in questions {
        questions := questions[id := WithAnswer(questions[id], answerText, now)];
      }
      if id !in questions || admin.id !in users {
        // the admin_actions row violates a foreign key
        return Err(PublishFailed);
      }
      actions := actions + [AdminAction(admin.id, AnswerPublished, id, AnswerLength(|answerText|), now)];
      var q := questions[id];
      notifications := notifications + [Notification(AnswerDelivered, q.email, q.id)];
      r := Ok(q);
    }

    /** The counts and revenue of `getDashboardStats` (admin only). */
    method GetDashboardStats(admin: Caller) returns (stats: Stats)
      requires IsAdmin(admin)
      ensures stats.total == |questions|
      ensures stats.received == |WithStatus(questions, questions.Keys, Received)|
      ensures stats.inProgress == |WithStatus(questions, questions.Keys, InProgress)|
      ensures stats.answered == |WithStatus(questions, questions.Keys, Answered)|
      ensures stats.revenue == PaidTotal(questions, questions.Keys)
      ensures (forall k :: k in questions ==> questions[k].paymentStatus != PaymentSucceeded) ==> stats.revenue == 0
    {
      var received := CountWithStatus(questions, Received);
      var inProgress := CountWithStatus(questions, InProgress);
      var answered := CountWithStatus(questions, Answered);
      var revenue := SumPaid(questions);
      stats := Stats(|questions|, received, inProgress, answered, revenue.GetOr(0));
    }
  }
}
