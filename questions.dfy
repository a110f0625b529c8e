/**
 * The `questions` row and the closed vocabularies (urgency, status, payment
 * status) that the controller stores as text columns.
 */
module Questions {
  import opened Wrappers

  datatype Urgency = Standard | Urgent

  /** Every value the `status` column takes. */
  datatype Status = PendingPayment | Received | InProgress | Answered | Cancelled | Refunded

  /** The `payment_status` column; the controller only ever writes these two. */
  datatype PaymentStatus = PaymentPending | PaymentSucceeded

  /** One row of the `questions` table. Timestamps are seconds on one clock. */
  datatype Question = Question(
    id: string,
    userId: Option<string>,
    email: string,
    title: string,
    details: string,
    urgency: Urgency,
    status: Status,
    priceCents: int,
    stripeSessionId: Option<string>,
    paymentStatus: PaymentStatus,
    dueDate: int,
    createdAt: int,
    answeredAt: Option<int>,
    answerText: Option<string>,
    adminNotes: Option<string>)

  function UrgencyName(u: Urgency): string {
    match u
    case Standard => "standard"
    case Urgent => "urgent"
  }

  /** Accepts exactly the two names the submit handler admits. */
  function ParseUrgency(s: string): (r: Option<Urgency>)
    ensures r.Some? <==> (s == "standard" || s == "urgent")
    ensures r.Some? ==> UrgencyName(r.value) == s
  {
    if s == "urgent" then Some(Urgent)
    else if s == "standard" then Some(Standard)
    else None
  }

  function StatusName(st: Status): string {
    match st
    case PendingPayment => "pending_payment"
    case Received => "received"
    case InProgress => "in_progress"
    case Answered => "answered"
    case Cancelled => "cancelled"
    case Refunded => "refunded"
  }

  /** The admin-settable statuses, in the handler's order. */
  const AdminStatusNames: seq<string> := ["received", "in_progress", "answered", "cancelled", "refunded"]

  /** Parses a status an admin may set; `pending_payment` is not among them. */
  function ParseAdminStatus(s: string): (r: Option<Status>)
    ensures r.Some? <==> s in AdminStatusNames
    ensures r.Some? ==> r.value != PendingPayment && StatusName(r.value) == s
  {
    if s == "received" then Some(Received)
    else if s == "in_progress" then Some(InProgress)
    else if s == "answered" then Some(Answered)
    else if s == "cancelled" then Some(Cancelled)
    else if s == "refunded" then Some(Refunded)
    else None
  }

  /** Names are distinct, so comparing the stored text compares statuses. */
  lemma StatusNameInjective(a: Status, b: Status)
    ensures StatusName(a) == StatusName(b) <==> a == b
  {
  }

  lemma UrgencyRoundTrip(u: Urgency)
    ensures ParseUrgency(UrgencyName(u)) == Some(u)
  {
  }

  /** Every admin-settable status survives a round trip through its name. */
  lemma AdminStatusRoundTrip(st: Status)
    requires st != PendingPayment
    ensures ParseAdminStatus(StatusName(st)) == Some(st)
  {
  }
}
