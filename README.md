# Paid-question lifecycle, modelled in Dafny

This project models the core of a small paid Q&A service. A visitor submits a
question and pays through a hosted checkout session. An admin then moves the
question through its statuses and publishes an answer. The model covers:

- the question controller (`backend/src/controllers/questionController.js`):
  submission, payment confirmation, admin status changes, answer publication,
  and the read paths (one question, the caller's own listing, the admin
  listing with filters, and the dashboard counts and revenue);
- the checkout-session gateway (`backend/src/services/stripeService.js`): mock
  mode, its process-wide session map, and the shape of the real provider
  request and of every `{ success, ... }` result.

Layout, one module per file:

- `wrappers.dfy` (`Wrappers`): `Option`, and `Result` for the `{ success, ... }`
  replies and error responses.
- `questions.dfy` (`Questions`): the `questions` row, plus the urgency, status
  and payment-status vocabularies with their text names.
- `question_query.dfy` (`QuestionQuery`): the database's side of the listings.
  The WHERE clause is a list of conditions joined by AND. `SelectRows`
  evaluates it and orders the rows by `created_at`, newest first.
- `stripe_service.dfy` (`StripeService`): the `Gateway` class, holding the
  `mockSessions` map, plus the session and request records.
- `question_controller.dfy` (`QuestionController`): the `Controller` class.
  The `questions` table is a map from id to row. `admin_actions` and the sent
  notifications are append-only sequences. The class also holds pricing,
  validation, the access rule, and the statistics.
- `lifecycle_scenarios.dfy` (`LifecycleScenarios`): client methods. They show
  what follows from the contracts for sequences of calls.

Things outside the model enter as parameters:

- the clock, as `now` (seconds);
- the question uuid, as `questionId`, and the random part of a mock session
  id, as `suffix`;
- `FRONTEND_URL`, as `frontendUrl`;
- the pricing environment variables, as a `PricingEnv`;
- the real payment provider, as two functions: `providerCreate`, from a
  checkout request to an outcome, and `providerRetrieve`, from a session id
  to an outcome;
- the ids in the `users` table, as the controller's `users` set. Registration
  is not part of the core, so the set does not change.

The route guards become preconditions. The admin routes require
`IsAdmin(admin)`. `getMyQuestions` takes a signed-in `Caller`. Submission and
`getQuestion` take an `Option<Caller>`.

The model follows the code wherever the code's design notes differ from it:

- Payment confirmation has no guard on the prior status. Confirming again
  sends a second confirmation, and it moves an `answered`, `cancelled` or
  `refunded` question back to `received` (`LifecycleScenarios.ConfirmTwice`).
- An admin may set any of `received`, `in_progress`, `answered`, `cancelled`
  or `refunded`, whatever the current status is.
- Publishing overwrites any earlier answer.

`Controller.ConfirmPaymentOnce` is NOT the source's behaviour. It is an added,
guarded variant: it leaves alone a question that already moved on from
`pending_payment`, and only for it is idempotence proved
(`LifecycleScenarios.ConfirmOnceTwice`).

These error paths follow from the schema, because foreign keys are on
(`backend/src/config/database.js:13`):

- Changing the status of an unknown id, or publishing an answer to one,
  updates no row. The `admin_actions` insert then violates its `question_id`
  foreign key, so the request fails (500) and nothing changes.
- An admin whose token is valid but whose id is no `users` row (for example
  after the database was seeded again) fails the `admin_id` foreign key of
  `admin_actions`. The UPDATE before it is a separate, already committed
  statement, so the status change or the answer stays stored while the
  request fails (500), with no log entry and no answer notification
  (`LifecycleScenarios.UnregisteredAdminPublishes`).
- Confirming a paid session that names an unknown question fails in the
  confirmation sender (500). Nothing changes.
- Submitting with a question id that is already in use, or as a signed-in
  caller whose id is no `users` row, fails at the INSERT (500): the primary
  key or the `user_id` foreign key. The gateway is never called.

## Model

| member | source | states |
|---|---|---|
| `Questions.ParseUrgency` | backend/src/controllers/questionController.js:16-18 | only `standard` and `urgent` are accepted, and a parsed urgency has that same name |
| `Questions.UrgencyRoundTrip` | backend/src/controllers/questionController.js:16 | every urgency class parses back from its stored name |
| `Questions.ParseAdminStatus` | backend/src/controllers/questionController.js:218-221 | a status is accepted iff it is one of the five admin-settable names; `pending_payment` is never accepted; the parsed status has the given name |
| `Questions.AdminStatusRoundTrip` | backend/src/controllers/questionController.js:218 | every status except `pending_payment` parses back from its name |
| `Questions.StatusNameInjective` | backend/src/controllers/questionController.js:186-189 | two statuses have the same stored text iff they are equal, so filtering on the text filters on the status |
| `QuestionQuery.InsertionPoint` | backend/src/controllers/questionController.js:196 | the position for a row in a newest-first list: every row before it is strictly newer, the row at it is not newer |
| `QuestionQuery.InsertNewestFirst` | backend/src/controllers/questionController.js:196 | inserting keeps a list newest first, adds exactly the new row (the result's multiset is the old one plus that row), and keeps ids distinct when the id is new |
| `QuestionQuery.SelectRows` | backend/src/controllers/questionController.js:183-198 | the result holds every stored row that meets all conditions, holds only such rows, as stored, each id once, ordered by `created_at` descending |
| `QuestionQuery.DistinctIdsCount` | backend/src/controllers/questionController.js:198 | a list whose ids are distinct has as many ids as entries |
| `QuestionQuery.SelectionLength` | backend/src/controllers/questionController.js:198 | the listed ids are exactly the matching ids, one entry per matching row |
| `StripeService.UseMock` | backend/src/services/stripeService.js:1-4 | mock mode is on iff the key is unset, empty or `sk_test_mock`, that is iff the client library is built with the mock key; an unset key always means mock mode |
| `StripeService.MockSession` | backend/src/services/stripeService.js:12-24 | a mock session's id starts with `cs_test_`; it reports `paid` and `usd`; its metadata names the question; its amount is the question's price |
| `StripeService.CheckoutRequestFor` | backend/src/services/stripeService.js:44-65 | the real request has one card line item in `usd` at `unit_amount = price_cents` and quantity 1, so it charges exactly the price; it is in `payment` mode and tagged with the question id |
| `StripeService.CreateOutcome` | backend/src/services/stripeService.js:36-72 | in mock mode session creation always succeeds with a paid session naming the question; otherwise the outcome is exactly the provider's answer to the real request, errors included |
| `StripeService.Lookup` | backend/src/services/stripeService.js:77-90 | in mock mode a stored id is answered with the stored session; in real mode, or for an id not in the map, the provider answers, failure included |
| `StripeService.StoredSessionIsRetrieved` | backend/src/services/stripeService.js:77-81 | after a mock session is stored, looking it up by its id returns it unchanged |
| `StripeService.StoringKeepsOtherSessions` | backend/src/services/stripeService.js:27 | storing a mock session leaves the answer for every other id unchanged |
| `StripeService.UnknownMockIdFallsThrough` | backend/src/services/stripeService.js:79-89 | in mock mode an id not in the map is answered by the provider, failure included |
| `StripeService.Gateway.constructor` | backend/src/services/stripeService.js:4-7 | a new gateway is in mock mode iff the key says so, and its session map is empty |
| `StripeService.Gateway.CreateMockCheckoutSession` | backend/src/services/stripeService.js:12-31 | returns success with the mock session and stores it under its id, leaving the other entries as they were |
| `StripeService.Gateway.CreateCheckoutSession` | backend/src/services/stripeService.js:36-72 | mock mode creates and stores a mock session; real mode returns the provider's outcome for the request and leaves the map unchanged |
| `StripeService.Gateway.GetCheckoutSession` | backend/src/services/stripeService.js:77-90 | returns the stored session when in mock mode and the id is in the map; otherwise returns the provider's outcome |
| `QuestionController.DefaultPricing` | backend/src/controllers/questionController.js:24-30 | with nothing configured, urgent costs 9900 cents with a 6-hour SLA, standard 4900 cents with 24 hours |
| `QuestionController.PriceCents` | backend/src/controllers/questionController.js:24-26 | an urgency class costs its configured price when one is set, otherwise 9900 cents for urgent and 4900 for standard |
| `QuestionController.SlaHours` | backend/src/controllers/questionController.js:28-30 | an urgency class has its configured SLA when one is set, otherwise 6 hours for urgent and 24 for standard |
| `QuestionController.CheckSubmission` | backend/src/controllers/questionController.js:12-18 | missing email, title, details or urgency gives `MissingFields`; otherwise an urgency other than `standard`/`urgent` gives `InvalidUrgency`; otherwise success, with the urgency so named |
| `QuestionController.NewQuestion` | backend/src/controllers/questionController.js:24-42 | the inserted row carries the body's email, title and details and the parsed urgency; it costs the urgency's price, is created now and due the urgency's SLA hours later, is `pending_payment`/`pending`, has no session, answer or notes, and is owned by the caller's id iff one is signed in |
| `QuestionController.CanView` | backend/src/controllers/questionController.js:155-158 | an anonymous caller may never view a question; an admin may view every question; any other caller may view exactly the questions owned by their id or sent from their email |
| `QuestionController.ListedIffViewable` | backend/src/controllers/questionController.js:129-158 | a question in the caller's own listing is one they may view; for a caller who is not an admin, the converse holds too |
| `QuestionController.BuildAdminQuery` | backend/src/controllers/questionController.js:183-196 | a row meets the built query iff it matches every supplied filter (status, urgency); with no filter every row matches |
| `QuestionController.PaidTotal` | backend/src/controllers/questionController.js:293 | the sum of `price_cents` over the paid rows of a set of ids: 0 for no rows, and what the row earns for a single row |
| `QuestionController.PaidTotalRemove` | backend/src/controllers/questionController.js:293 | the revenue sum does not depend on the order the rows are visited in |
| `QuestionController.NoPaymentNoRevenue` | backend/src/controllers/questionController.js:293 | revenue is 0 when no payment has succeeded |
| `QuestionController.MarkPaid` | backend/src/controllers/questionController.js:98-102 | a confirmed row is `received` and `succeeded`, now earns its price, and keeps every other column |
| `QuestionController.WithAnswer` | backend/src/controllers/questionController.js:257-261 | an answered row has status `answered`, the given text and time, earns what it earned before, and keeps every other column |
| `QuestionController.ConfirmRevenue` | backend/src/controllers/questionController.js:98-102 | a confirmation adds the question's price to revenue if it was not yet paid, and nothing if it was |
| `QuestionController.AdminChangesKeepRevenue` | backend/src/controllers/questionController.js:293 | status changes and published answers leave revenue unchanged |
| `QuestionController.CountWithStatus` | backend/src/controllers/questionController.js:290-292 | returns the number of stored questions with the given status |
| `QuestionController.SumPaid` | backend/src/controllers/questionController.js:293 | returns the sum of `price_cents` over the paid questions; the result is NULL (`None`) iff no payment succeeded |
| `QuestionController.Controller.constructor` | backend/src/config/migrate.js:10-89 | a new store over a given `users` table has no questions, no admin actions and no notifications |
| `QuestionController.Controller.SubmitQuestion` | backend/src/controllers/questionController.js:9-67 | an invalid body is rejected with nothing stored or created; a taken id or a signed-in caller who is no `users` row fails at the INSERT with nothing stored or created; otherwise exactly one `pending_payment` row is added; if the gateway fails it stays without a session and `PaymentSessionFailed` is returned; on success only its session id is then set to the returned session's id, which is returned with the checkout URL |
| `QuestionController.Controller.ConfirmPayment` | backend/src/controllers/questionController.js:72-117 | an empty id, a failed lookup, an unpaid session or an unknown question each give their own error, with nothing changed and nothing sent; otherwise exactly the named question becomes `received`/`succeeded`, whatever its prior status, and one confirmation goes to its email |
| `QuestionController.Controller.ConfirmPaymentOnce` | backend/src/controllers/questionController.js:85-107 | added variant, not the source's behaviour: same as confirmation, except that a question already past `pending_payment` is returned as it is, with nothing changed and nothing sent |
| `QuestionController.Controller.GetMyQuestions` | backend/src/controllers/questionController.js:122-131 | the summaries of exactly the questions whose owner id or email is the caller's, each once, newest first |
| `QuestionController.Controller.GetQuestion` | backend/src/controllers/questionController.js:143-160 | an unknown id gives `NotFound`; a known one is returned iff the caller may view it, and `AccessDenied` otherwise |
| `QuestionController.Controller.GetAllQuestions` | backend/src/controllers/questionController.js:178-198 | exactly the questions matching every supplied filter (all of them when none is supplied), each once, newest first, as many as match |
| `QuestionController.Controller.UpdateQuestionStatus` | backend/src/controllers/questionController.js:210-241 | an empty status, a status outside the admin set, or an unknown id is rejected with no change; otherwise that question's status is set, from any prior status, and nothing is sent; one `status_change` action carrying the new status is appended when the admin is a `users` row, and otherwise the request fails with the new status kept and nothing logged |
| `QuestionController.Controller.PublishAnswer` | backend/src/controllers/questionController.js:246-279 | empty text or an unknown id is rejected with no change; otherwise the answer, `answered` and the answer time are set together, replacing any earlier answer; when the admin is a `users` row one `answer_published` action with the text's length is appended and one answer notification is sent, and otherwise the request fails with the answer kept, nothing logged and nothing sent |
| `QuestionController.Controller.GetDashboardStats` | backend/src/controllers/questionController.js:284-293 | the total count, the counts of `received`, `in_progress` and `answered` questions, and the revenue over paid questions, which is 0 when none is paid |
| `LifecycleScenarios.MockCreateThenGet` | backend/src/services/stripeService.js:12-81 | in mock mode, retrieving a newly created session returns the identical record, and other stored sessions are unchanged |
| `LifecycleScenarios.SubmitThenConfirm` | backend/src/services/stripeService.js:18 | in mock mode, confirming the session id that submission returned passes the `paid` check; the question becomes `received`/`succeeded` and one confirmation is sent |
| `LifecycleScenarios.ConfirmTwice` | backend/src/controllers/questionController.js:98-107 | as written, confirming twice sends two confirmations and leaves the question `received`, even when it had been answered, keeping its answer |
| `LifecycleScenarios.ConfirmOnceTwice` | backend/src/controllers/questionController.js:98-107 | with the added guarded variant, a second confirmation returns the same question and changes and sends nothing |
| `LifecycleScenarios.UrgentQuestionAnswered` | backend/src/controllers/questionController.js:24-272 | an urgent question, paid and then answered: 9900 cents, due 6 hours after submission, `answered` with the text, one confirmation and one answer notification, one admin action |
| `LifecycleScenarios.UnregisteredAdminPublishes` | backend/src/controllers/questionController.js:257-267 | an admin whose id is no `users` row gets a failed publish, yet the question is stored as `answered` with the text, and no action is logged and no notification sent |

## Left out

- The HTTP layer is not modelled: Express wiring, the auth middleware, request parsing, response shapes and status codes. The route guards are preconditions or caller parameters. The middleware file is not part of this model.
- `Controller.GetQuestion` returns the question without its attachments (backend/src/controllers/questionController.js:163). No operation in the core writes the `attachments` table.
- `avg_response_time` in the dashboard is not modelled, because it is floating-point `julianday` arithmetic.
- `createRefund`, `verifyWebhookSignature` and the stub webhook route are not modelled, because they are foreign library calls.
- Email templating and the file write are not modelled. Every send is recorded as one `Notification` of its kind, recipient and question. The case where the file write fails is not modelled; in that case the source records no `email_notifications` row.
- No uuid or `Math.random` value is generated. The question id and the mock session suffix are parameters. The ids of `admin_actions` and `email_notifications` rows are not modelled, and so neither is a collision between them.
- `Controller.SubmitQuestion`: the row's `created_at` (the database clock) and its due date (the process clock plus `setHours`) are taken from one `now`. Local-time daylight-saving shifts in `setHours` are not modelled.
- `PriceCents`, `SlaHours`: the environment values are taken as already-parsed integers. A value that `parseInt` turns into `NaN` is not modelled.
- Request fields are strings, and a missing field is the empty string. Non-string JSON values are not modelled.
- `Controller.PublishAnswer`: the logged `answer_length` counts Unicode scalar values. JavaScript's `length` counts UTF-16 code units, so the two differ for characters outside the Basic Multilingual Plane.
- Revenue and prices are unbounded integers. The 64-bit limit of SQLite integers is not modelled.
- A real provider session without `metadata.question_id` is not modelled. Every session carries a question id.
- The `payment_status` value `failed` is never written by the core, so it has no counterpart.
- The `users` table is a fixed set of ids. Registration, login and the `ON DELETE CASCADE` of `questions.user_id` belong to the authentication code, which is not part of this model.
- Concurrency is not modelled: every operation runs alone, without interleaving.
- Rows with equal `created_at` may appear in either order, as SQL leaves that unspecified. `SelectRows` fixes one order, but the contracts promise only newest-first.
