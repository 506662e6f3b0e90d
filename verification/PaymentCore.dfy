/** The payment, its lifecycle, its events, and the errors operations answer with. */
module PaymentCore {
  import opened Wrappers

  // === Identifiers and time

  type Uuid = nat

  /** A point in time, or a span of it, in microseconds. */
  type Time = int

  const SECOND: Time := 1_000_000

  // === Status

  datatype PaymentStatus = Pending | Detected | Confirmed | Failed | Expired

  predicate CanTransition(from: PaymentStatus, next: PaymentStatus) {
    || (from.Pending? && next.Detected?)
    || (from.Pending? && next.Expired?)
    || (from.Detected? && next.Confirmed?)
    || (from.Detected? && next.Failed?)
  }

  predicate IsTerminal(status: PaymentStatus) {
    status.Confirmed? || status.Failed? || status.Expired?
  }

  /** Of the twenty-five pairs four are legal, and a terminal status is one without a way out. */
  lemma LegalTransitions(from: PaymentStatus, next: PaymentStatus)
    ensures CanTransition(from, next) <==>
      (from, next) in {(Pending, Detected), (Pending, Expired), (Detected, Confirmed), (Detected, Failed)}
    ensures IsTerminal(from) <==> forall to :: !CanTransition(from, to)
  {
    assert CanTransition(Pending, Detected) && CanTransition(Detected, Confirmed);
  }

  // === Status as text

  /** As the status column holds it. */
  function StatusText(status: PaymentStatus): string {
    match status
    case Pending => "pending"
    case Detected => "detected"
    case Confirmed => "confirmed"
    case Failed => "failed"
    case Expired => "expired"
  }

  function ParseStatus(text: string): Option<PaymentStatus> {
    match text
    case "pending" => Some(Pending)
    case "detected" => Some(Detected)
    case "confirmed" => Some(Confirmed)
    case "failed" => Some(Failed)
    case "expired" => Some(Expired)
    case _ => None
  }

  /** Reading a written status gives it back, and nothing but a written status can be read. */
  lemma StatusTextRoundTrip(status: PaymentStatus, text: string)
    ensures ParseStatus(StatusText(status)) == Some(status)
    ensures ParseStatus(text) == Some(status) <==> text == StatusText(status)
  {
  }

  // === Payment

  datatype Payment = Payment(
    id: Uuid,
    reference: string,
    amount: string,
    destination: string,
    memo: Option<string>,
    status: PaymentStatus,
    txHash: Option<string>,
    createdAt: Time,
    updatedAt: Time)

  function NewPayment(
    id: Uuid, amount: string, reference: string, destination: string, memo: Option<string>, now: Time): Payment
  {
    Payment(id, reference, amount, destination, memo, Pending, None, now, now)
  }

  /** Awaiting reconciliation. */
  predicate IsActive(status: PaymentStatus) {
    status.Pending? || status.Detected?
  }

  // === Events

  datatype PaymentEvent =
    | PaymentCreated(payment: Payment)
    | PaymentDetected(payment: Payment)
    | PaymentConfirmed(payment: Payment)
    | PaymentFailed(payment: Payment)
    | PaymentExpired(payment: Payment)

  function EventType(event: PaymentEvent): string {
    match event
    case PaymentCreated(_) => "payment.created"
    case PaymentDetected(_) => "payment.detected"
    case PaymentConfirmed(_) => "payment.confirmed"
    case PaymentFailed(_) => "payment.failed"
    case PaymentExpired(_) => "payment.expired"
  }

  /** The status an event's type names. */
  function NamedStatus(event: PaymentEvent): PaymentStatus {
    match event
    case PaymentCreated(_) => Pending
    case PaymentDetected(_) => Detected
    case PaymentConfirmed(_) => Confirmed
    case PaymentFailed(_) => Failed
    case PaymentExpired(_) => Expired
  }

  /** The type of an event is the text of the status it names, except that a new payment is created. */
  lemma TypeIsStatusText(event: PaymentEvent)
    ensures
      match event
      case PaymentCreated(_) => EventType(event) == "payment.created"
      case PaymentDetected(_) => EventType(event) == "payment.detected"
      case PaymentConfirmed(_) => EventType(event) == "payment.confirmed"
      case PaymentFailed(_) => EventType(event) == "payment.failed"
      case PaymentExpired(_) => EventType(event) == "payment.expired"
    ensures EventType(event)
         == if event.PaymentCreated? then "payment.created" else "payment." + StatusText(NamedStatus(event))
  {
  }

  /** Two events have the same type exactly when they name the same status. */
  lemma TypesNameStatuses(a: PaymentEvent, b: PaymentEvent)
    ensures EventType(a) == EventType(b) <==> NamedStatus(a) == NamedStatus(b)
  {
    assert |EventType(a)| != |EventType(b)| || EventType(a)[8] != EventType(b)[8] || NamedStatus(a) == NamedStatus(b);
  }

  // === Errors

  datatype RepositoryError = Database | NotFound | Conflict

  datatype PaymentError =
    | InvalidAmount(amount: string)
    | DuplicateReference(reference: string)
    | PaymentNotFound(id: Uuid)
    | InvalidTransition(from: PaymentStatus, to: PaymentStatus)
    | Repository(error: RepositoryError)
}
