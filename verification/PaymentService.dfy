/**
 * The payment service, written once against either repository, and the same
 * calls in place over the in-memory one.
 */
module PaymentService {
  import opened Wrappers
  import opened Amounts
  import opened AmountTexts
  import opened Collections
  import opened Pagination
  import opened PaymentCore
  import PaymentRepository
  import PaymentTable

  // === Either repository

  datatype Backend = InMemory(memory: PaymentRepository.Memory) | Postgres(table: PaymentTable.Table)

  /** The process reads its own clock, the database its own. */
  datatype Clocks = Clocks(process: Time, database: Time)

  function FindById(s: Backend, id: Uuid): Option<Payment> {
    match s
    case InMemory(m) => PaymentRepository.FindById(m, id)
    case Postgres(t) => PaymentTable.FindById(t, id)
  }

  function FindByIdempotencyKey(s: Backend, key: string): Option<Payment> {
    match s
    case InMemory(m) => PaymentRepository.FindByIdempotencyKey(m, key)
    case Postgres(t) => PaymentTable.FindByIdempotencyKey(t, key)
  }

  function CreateIn(s: Backend, payment: Payment, key: Option<string>): (Backend, Result<Payment, RepositoryError>) {
    match s
    case InMemory(m) =>
      var (m', r) := PaymentRepository.Create(m, payment, key);
      (InMemory(m'), r)
    case Postgres(t) =>
      var (t', r) := PaymentTable.Create(t, payment, key);
      (Postgres(t'), r)
  }

  function UpdateIn(s: Backend, id: Uuid, next: PaymentStatus, txHash: Option<string>, clocks: Clocks)
    : (Backend, Result<Payment, RepositoryError>)
  {
    match s
    case InMemory(m) =>
      var (m', r) := PaymentRepository.UpdateStatus(m, id, next, txHash, clocks.process);
      (InMemory(m'), r)
    case Postgres(t) =>
      var (t', r) := PaymentTable.UpdateStatus(t, id, next, txHash, clocks.database);
      (Postgres(t'), r)
  }

  // === The calls

  /** Looks the key up first, so that a retried request replays the stored payment. */
  function CreateWithIdempotency(s: Backend, payment: Payment, key: Option<string>)
    : (Backend, Result<Payment, PaymentError>)
  {
    if key.Some? && FindByIdempotencyKey(s, key.value).Some? then
      (s, Ok(FindByIdempotencyKey(s, key.value).value))
    else
      var (s', r) := CreateIn(s, payment, key);
      match r
      case Ok(created) => (s', Ok(created))
      case Err(Conflict) => (s', Err(DuplicateReference(payment.reference)))
      case Err(other) => (s', Err(Repository(other)))
  }

  /** What a creation request brings along, with what is drawn for it: an id, a memo, the time. */
  datatype Request = Request(
    amount: string,
    reference: string,
    destination: Option<string>,
    memo: Option<string>,
    key: Option<string>,
    id: Uuid,
    generatedMemo: string,
    now: Time)

  function Or(text: Option<string>, default: string): string {
    if text.Some? then text.value else default
  }

  function Requested(r: Request, defaultDestination: string): Payment {
    NewPayment(r.id, r.amount, r.reference, Or(r.destination, defaultDestination), Some(Or(r.memo, r.generatedMemo)),
               r.now)
  }

  function CreatePayment(s: Backend, r: Request, defaultDestination: string): (Backend, Result<Payment, PaymentError>) {
    match ValidateAmount(r.amount)
    case Err(error) => (s, Err(error))
    case Ok(_) => CreateWithIdempotency(s, Requested(r, defaultDestination), r.key)
  }

  lemma OnlyInvalidIsRefusedForIt(s: Backend, r: Request, defaultDestination: string)
    ensures CreatePayment(s, r, defaultDestination).1 == Err(InvalidAmount(r.amount)) <==> !Valid(r.amount)
  {
  }

  /** A creation is refused for its amount exactly when the text is no amount. */
  lemma RefusedForItsText(s: Backend, r: Request, defaultDestination: string)
    ensures CreatePayment(s, r, defaultDestination).1 == Err(InvalidAmount(r.amount)) <==> !IsAmountText(r.amount)
  {
    OnlyInvalidIsRefusedForIt(s, r, defaultDestination);
    ValidIffAmountText(r.amount);
  }

  function Transition(s: Backend, id: Uuid, target: PaymentStatus, txHash: Option<string>, clocks: Clocks)
    : (Backend, Result<Payment, PaymentError>)
  {
    match FindById(s, id)
    case None => (s, Err(PaymentNotFound(id)))
    case Some(current) =>
      if !CanTransition(current.status, target) then (s, Err(InvalidTransition(current.status, target)))
      else
        var (s', r) := UpdateIn(s, id, target, txHash, clocks);
        match r
        case Ok(updated) => (s', Ok(updated))
        case Err(error) => (s', Err(Repository(error)))
  }

  function GetPayment(s: Backend, id: Uuid): Result<Payment, PaymentError> {
    match FindById(s, id)
    case None => Err(PaymentNotFound(id))
    case Some(payment) => Ok(payment)
  }

  // === Listing

  /** One page, and how many payments there are in all. */
  datatype Listed = Listed(payments: seq<Payment>, total: nat)

  /** Payments created at the same time may come in any order, and on either side of a page's end. */
  ghost predicate MayList(s: Backend, status: Option<PaymentStatus>, page: u32, perPage: u32, answer: Listed) {
    match s
    case InMemory(m) =>
      && answer.total == PaymentRepository.CountOf(m, status)
      && exists order :: Enumerates(order, m.payments.Keys)
           && answer.payments == PageOf(PaymentRepository.Newest(m, order, status), page, perPage)
    case Postgres(t) =>
      && answer.total == PaymentTable.CountOf(t, status)
      && exists list :: PaymentTable.IsNewestList(t, status, list) && answer.payments == PageOf(list, page, perPage)
  }

  // === The service over the in-memory repository

  class PaymentService {
    const repository: PaymentRepository.InMemoryPaymentRepository
    const defaultDestination: string

    constructor (repository: PaymentRepository.InMemoryPaymentRepository, defaultDestination: string)
      ensures this.repository == repository && this.defaultDestination == defaultDestination
    {
      this.repository := repository;
      this.defaultDestination := defaultDestination;
    }

    function Contents(): Backend
      reads this, repository
    {
      InMemory(repository.Contents())
    }

    method CreateIdempotently(payment: Payment, key: Option<string>) returns (r: Result<Payment, PaymentError>)
      requires repository.Valid()
      modifies repository
      ensures repository.Valid()
      ensures (Contents(), r) == CreateWithIdempotency(old(Contents()), payment, key)
    {
      if key.Some? {
        var existing := repository.FindByKey(key.value);
        if existing.Some? {
          return Ok(existing.value);
        }
      }
      var reference := payment.reference;
      var created := repository.CreateWithIdempotencyKey(payment, key);
      match created
      case Ok(stored) => r := Ok(stored);
      case Err(Conflict) => r := Err(DuplicateReference(reference));
      case Err(other) => r := Err(Repository(other));
    }

    method Create(request: Request) returns (r: Result<Payment, PaymentError>)
      requires repository.Valid()
      modifies repository
      ensures repository.Valid()
      ensures (Contents(), r) == CreatePayment(old(Contents()), request, defaultDestination)
      ensures r == Err(InvalidAmount(request.amount)) <==> !IsAmountText(request.amount)
    {
      RefusedForItsText(Contents(), request, defaultDestination);
      var validated := ValidateAmount(request.amount);
      if validated.Err? {
        return Err(validated.error);
      }
      var destination := if request.destination.Some? then request.destination.value else defaultDestination;
      var memo := if request.memo.Some? then request.memo else Some(request.generatedMemo);
      var payment := NewPayment(request.id, request.amount, request.reference, destination, memo, request.now);
      r := CreateIdempotently(payment, request.key);
    }

    method MarkDetected(id: Uuid, txHash: string, clocks: Clocks) returns (r: Result<Payment, PaymentError>)
      requires repository.Valid()
      modifies repository
      ensures repository.Valid()
      ensures (Contents(), r) == Transition(old(Contents()), id, Detected, Some(txHash), clocks)
    {
      r := MoveTo(id, Detected, Some(txHash), clocks);
    }

    method ConfirmPayment(id: Uuid, clocks: Clocks) returns (r: Result<Payment, PaymentError>)
      requires repository.Valid()
      modifies repository
      ensures repository.Valid()
      ensures (Contents(), r) == Transition(old(Contents()), id, Confirmed, None, clocks)
    {
      r := MoveTo(id, Confirmed, None, clocks);
    }

    method FailPayment(id: Uuid, clocks: Clocks) returns (r: Result<Payment, PaymentError>)
      requires repository.Valid()
      modifies repository
      ensures repository.Valid()
      ensures (Contents(), r) == Transition(old(Contents()), id, Failed, None, clocks)
    {
      r := MoveTo(id, Failed, None, clocks);
    }

    method ExpirePayment(id: Uuid, clocks: Clocks) returns (r: Result<Payment, PaymentError>)
      requires repository.Valid()
      modifies repository
      ensures repository.Valid()
      ensures (Contents(), r) == Transition(old(Contents()), id, Expired, None, clocks)
    {
      r := MoveTo(id, Expired, None, clocks);
    }

    /** An early read for a clear error, then the guarded update. */
    method MoveTo(id: Uuid, target: PaymentStatus, txHash: Option<string>, clocks: Clocks)
      returns (r: Result<Payment, PaymentError>)
      requires repository.Valid()
      modifies repository
      ensures repository.Valid()
      ensures (Contents(), r) == Transition(old(Contents()), id, target, txHash, clocks)
      ensures repository.keys == old(repository.keys)
      ensures
        var before := old(repository.payments);
        if id !in before then r == Err(PaymentNotFound(id)) && repository.payments == before
        else if (before[id].status, target)
                !in {(Pending, Detected), (Pending, Expired), (Detected, Confirmed), (Detected, Failed)} then
          r == Err(InvalidTransition(before[id].status, target)) && repository.payments == before
        else
          && r == Ok(before[id].(status := target, updatedAt := clocks.process,
                                 txHash := if txHash.Some? then txHash else before[id].txHash))
          && repository.payments == before[id := r.value]
    {
      var current := repository.Find(id);
      if current.None? {
        return Err(PaymentNotFound(id));
      }
      LegalTransitions(current.value.status, target);
      if !CanTransition(current.value.status, target) {
        return Err(InvalidTransition(current.value.status, target));
      }
      var updated := repository.Update(id, target, txHash, clocks.process);
      match updated
      case Ok(payment) => r := Ok(payment);
      case Err(error) => r := Err(Repository(error));
    }

    method ListPayments(status: Option<PaymentStatus>, page: u32, perPage: u32) returns (answer: Listed)
      requires repository.Valid()
      ensures MayList(Contents(), status, page, perPage, answer)
      ensures forall p :: p in answer.payments ==>
        && p.id in repository.payments && repository.payments[p.id] == p
        && (status.None? || status == Some(p.status))
      ensures forall i, j :: 0 <= i < j < |answer.payments| ==>
        answer.payments[i].createdAt >= answer.payments[j].createdAt && answer.payments[i] != answer.payments[j]
      ensures answer.total
           == |set id | id in repository.payments && (status.None? || status == Some(repository.payments[id].status))|
    {
      var payments := repository.ListPaginated(status, page, perPage);
      var total := repository.Count(status);
      assert Enumerates(repository.order, repository.payments.Keys);
      answer := Listed(payments, total);
    }

    method GetById(id: Uuid) returns (r: Result<Payment, PaymentError>)
      requires repository.Valid()
      ensures r == GetPayment(Contents(), id)
      ensures r.Ok? <==> id in repository.payments
      ensures if r.Ok? then r.value.id == id else r == Err(PaymentNotFound(id))
    {
      var found := repository.Find(id);
      r := if found.Some? then Ok(found.value) else Err(PaymentNotFound(id));
    }
  }
}
