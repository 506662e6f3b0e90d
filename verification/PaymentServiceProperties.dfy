/**
 * What the service promises its callers, over either repository: payments are
 * stored as requested, a retry replays, and a transition happens or is refused
 * for the reason given.
 */
module PaymentServiceProperties {
  import opened Wrappers
  import opened Decimals
  import opened Powers
  import opened Amounts
  import opened AmountTexts
  import opened PaymentCore
  import opened PaymentService
  import PaymentRepository
  import PaymentTable

  // === Sound repositories stay sound

  ghost predicate Sound(s: Backend) {
    match s
    case InMemory(m) => PaymentRepository.Coherent(m)
    case Postgres(t) => PaymentTable.Constrained(t)
  }

  lemma CreationKeepsSound(s: Backend, r: Request, defaultDestination: string)
    requires Sound(s)
    ensures Sound(CreatePayment(s, r, defaultDestination).0)
  {
    var p := Requested(r, defaultDestination);
    match s
    case InMemory(m) => PaymentRepository.CreateKeepsCoherent(m, p, r.key);
    case Postgres(t) => PaymentTable.CreateKeepsConstraints(t, p, r.key);
  }

  lemma TransitionKeepsSound(s: Backend, id: Uuid, target: PaymentStatus, txHash: Option<string>, clocks: Clocks)
    requires Sound(s)
    ensures Sound(Transition(s, id, target, txHash, clocks).0)
  {
    match s
    case InMemory(m) => PaymentRepository.UpdateKeepsCoherent(m, id, target, txHash, clocks.process);
    case Postgres(t) => PaymentTable.UpdateKeepsConstraints(t, id, target, txHash, clocks.database);
  }

  // === Creation

  predicate KeySeen(s: Backend, key: Option<string>) {
    key.Some? && FindByIdempotencyKey(s, key.value).Some?
  }

  /** A payment as it was asked for, its amount up to its text. */
  predicate IsAsRequested(p: Payment, r: Request, defaultDestination: string) {
    && p.id == r.id && p.reference == r.reference
    && AmountsMatch(r.amount, p.amount)
    && p.destination == (match r.destination case Some(d) => d case None => defaultDestination)
    && p.memo == Some(match r.memo case Some(m) => m case None => r.generatedMemo)
    && p.status.Pending? && p.txHash.None?
    && p.createdAt == p.updatedAt == r.now
  }

  lemma MatchesItself(amount: string)
    requires Valid(amount)
    ensures AmountsMatch(amount, amount)
  {
  }

  /** What an insert that succeeds leaves behind. */
  lemma InsertedIsFound(s: Backend, p: Payment, key: Option<string>)
    requires CreateIn(s, p, key).1.Ok? && Valid(p.amount)
    ensures
      var (s', r) := CreateIn(s, p, key);
      && r.value == p.(amount := r.value.amount) && AmountsMatch(p.amount, r.value.amount)
      && FindById(s', p.id) == Some(r.value)
      && (key.Some? ==> FindByIdempotencyKey(s', key.value) == Some(r.value))
  {
    match s
    case InMemory(_) => MatchesItself(p.amount);
    case Postgres(_) => StorageRoundTrip(p.amount);
  }

  lemma InsertedLeavesOthers(s: Backend, p: Payment, key: Option<string>, other: Uuid)
    requires other != p.id
    ensures FindById(CreateIn(s, p, key).0, other) == FindById(s, other)
  {
  }

  /**
   * A request under a key not seen before, if it succeeds, stores the payment
   * it asked for, which is found by its id and its key from then on; no other
   * payment changes.
   */
  lemma CreatedAsRequested(s: Backend, r: Request, defaultDestination: string, other: Uuid)
    requires !KeySeen(s, r.key) && CreatePayment(s, r, defaultDestination).1.Ok?
    ensures
      var (s', result) := CreatePayment(s, r, defaultDestination);
      && IsAsRequested(result.value, r, defaultDestination)
      && GetPayment(s', r.id) == result
      && (r.key.Some? ==> FindByIdempotencyKey(s', r.key.value) == Some(result.value))
      && (other != r.id ==> GetPayment(s', other) == GetPayment(s, other))
  {
    var p := Requested(r, defaultDestination);
    InsertedIsFound(s, p, r.key);
    if other != r.id {
      InsertedLeavesOthers(s, p, r.key, other);
    }
  }

  lemma RefusalLeavesAll(s: Backend, r: Request, defaultDestination: string)
    requires CreatePayment(s, r, defaultDestination).1.Err?
    ensures CreatePayment(s, r, defaultDestination).0 == s
  {
  }

  /** A refused request changes nothing, and is refused for its amount exactly when that does not validate. */
  lemma RefusedCreationChangesNothing(s: Backend, r: Request, defaultDestination: string)
    ensures
      var (s', result) := CreatePayment(s, r, defaultDestination);
      && (result.Err? ==> s' == s)
      && (result == Err(InvalidAmount(r.amount)) <==> !IsAmountText(r.amount))
  {
    RefusedForItsText(s, r, defaultDestination);
    if CreatePayment(s, r, defaultDestination).1.Err? {
      RefusalLeavesAll(s, r, defaultDestination);
    }
  }

  /** The amount, in ten-millionths, is more than the column holds. */
  predicate TooLarge(s: Backend, amount: string) {
    s.Postgres? && FromStr(amount).Some? && Units(FromStr(amount).value) >= 100_000_000_000_000_000_000
  }

  /** The repository holds something the new payment would clash with. */
  predicate Refuses(s: Backend, r: Request) {
    match s
    case InMemory(m) => exists id :: id in m.payments && m.payments[id].reference == r.reference
    case Postgres(t) =>
      || r.id in t.rows
      || (exists id :: id in t.rows && t.rows[id].reference == r.reference)
      || (r.key.Some? && r.key.value in t.keys)
  }

  lemma TooLargeIffNotStored(s: Backend, amount: string)
    requires Valid(amount)
    ensures TooLarge(s, amount) <==> s.Postgres? && Store(FromStr(amount).value).None?
  {
    PowersOfTen();
    UnitsAreTheValue(FromStr(amount).value);
  }

  /** What becomes of a request under a key not seen before. */
  lemma NewRequestOutcome(s: Backend, r: Request, defaultDestination: string)
    requires Valid(r.amount) && !KeySeen(s, r.key)
    ensures
      var (s', result) := CreatePayment(s, r, defaultDestination);
      if TooLarge(s, r.amount) then s' == s && result == Err(Repository(Database))
      else if Refuses(s, r) then s' == s && result == Err(DuplicateReference(r.reference))
      else result.Ok? && IsAsRequested(result.value, r, defaultDestination) && GetPayment(s', r.id) == result
  {
    TooLargeIffNotStored(s, r.amount);
    if CreatePayment(s, r, defaultDestination).1.Ok? {
      CreatedAsRequested(s, r, defaultDestination, r.id);
    }
  }

  /**
   * Every request, over either repository: a text that is no amount is
   * refused first; a key seen before is replayed; otherwise the payment is
   * stored as requested unless its amount is too large for the column or
   * something stored clashes with it.
   */
  lemma CreationOutcome(s: Backend, r: Request, defaultDestination: string)
    ensures
      var (s', result) := CreatePayment(s, r, defaultDestination);
      if !IsAmountText(r.amount) then s' == s && result == Err(InvalidAmount(r.amount))
      else if KeySeen(s, r.key) then s' == s && result == Ok(FindByIdempotencyKey(s, r.key.value).value)
      else if TooLarge(s, r.amount) then s' == s && result == Err(Repository(Database))
      else if Refuses(s, r) then s' == s && result == Err(DuplicateReference(r.reference))
      else result.Ok? && IsAsRequested(result.value, r, defaultDestination) && GetPayment(s', r.id) == result
  {
    ValidIffAmountText(r.amount);
    if Valid(r.amount) && !KeySeen(s, r.key) {
      NewRequestOutcome(s, r, defaultDestination);
    }
  }

  /** So the first request to an empty repository succeeds exactly when its text is an amount below 10^13. */
  lemma FirstCreationSucceedsIff(s: Backend, r: Request, defaultDestination: string)
    requires s == InMemory(PaymentRepository.Memory(map[], map[])) || s == Postgres(PaymentTable.EMPTY)
    ensures CreatePayment(s, r, defaultDestination).1.Ok? <==> IsAmountText(r.amount) && !TooLarge(s, r.amount)
  {
    CreationOutcome(s, r, defaultDestination);
  }

  /**
   * Idempotence: once a request under a key has succeeded, any request under
   * that key with a valid amount is answered with the same payment and changes
   * nothing, whatever else it asks for. An invalid amount is refused first.
   */
  lemma RetryReplays(s: Backend, r: Request, again: Request, defaultDestination: string)
    requires r.key.Some? && again.key == r.key && CreatePayment(s, r, defaultDestination).1.Ok?
    ensures
      var (s', result) := CreatePayment(s, r, defaultDestination);
      CreatePayment(s', again, defaultDestination)
        == (s', if Valid(again.amount) then result else Err(InvalidAmount(again.amount)))
  {
    if !KeySeen(s, r.key) {
      InsertedIsFound(s, Requested(r, defaultDestination), r.key);
    }
  }

  // === Transitions

  /** Only a hash that another row holds can stop a legal transition. */
  predicate HashRefused(s: Backend, id: Uuid, txHash: Option<string>) {
    s.Postgres? && PaymentTable.HashTaken(s.table, id, txHash)
  }

  /**
   * A transition succeeds exactly when the payment exists, may move there, and
   * its hash is free; the payment then has the new status and the hash, if one
   * was given, and nothing else about it changes. Refusals say why.
   */
  lemma TransitionOutcome(s: Backend, id: Uuid, target: PaymentStatus, txHash: Option<string>, clocks: Clocks)
    ensures
      var (s', result) := Transition(s, id, target, txHash, clocks);
      match GetPayment(s, id)
      case Err(missing) => s' == s && result == Err(missing) == Err(PaymentNotFound(id))
      case Ok(p) =>
        if !CanTransition(p.status, target) then s' == s && result == Err(InvalidTransition(p.status, target))
        else if HashRefused(s, id, txHash) then s' == s && result == Err(Repository(Conflict))
        else
          && result.Ok? && GetPayment(s', id) == result
          && result.value.status == target
          && result.value.txHash == (if txHash.Some? then txHash else p.txHash)
          && result.value.updatedAt == (if s.InMemory? then clocks.process else clocks.database)
          && p == result.value.(status := p.status, txHash := p.txHash, updatedAt := p.updatedAt)
  {
  }

  lemma UpdateLeavesOthers(
    s: Backend, id: Uuid, target: PaymentStatus, txHash: Option<string>, clocks: Clocks, other: Uuid)
    requires other != id
    ensures FindById(UpdateIn(s, id, target, txHash, clocks).0, other) == FindById(s, other)
  {
  }

  /** Nothing in both cases, or versions of one payment. */
  predicate SameId(a: Option<Payment>, b: Option<Payment>) {
    match a
    case None => b.None?
    case Some(p) => b.Some? && b.value.id == p.id
  }

  lemma UpdateKeepsKeys(
    s: Backend, id: Uuid, target: PaymentStatus, txHash: Option<string>, clocks: Clocks, key: string)
    ensures SameId(FindByIdempotencyKey(s, key), FindByIdempotencyKey(UpdateIn(s, id, target, txHash, clocks).0, key))
  {
  }

  lemma TransitionLeavesOthers(
    s: Backend, id: Uuid, target: PaymentStatus, txHash: Option<string>, clocks: Clocks, other: Uuid, key: string)
    requires other != id
    ensures
      var s' := Transition(s, id, target, txHash, clocks).0;
      && GetPayment(s', other) == GetPayment(s, other)
      && SameId(FindByIdempotencyKey(s, key), FindByIdempotencyKey(s', key))
  {
    UpdateLeavesOthers(s, id, target, txHash, clocks, other);
    UpdateKeepsKeys(s, id, target, txHash, clocks, key);
  }

  /** Repeating a transition is refused: every transition happens once. */
  lemma TransitionsDoNotRepeat(s: Backend, id: Uuid, target: PaymentStatus, txHash: Option<string>, clocks: Clocks)
    requires Transition(s, id, target, txHash, clocks).1.Ok?
    ensures
      var s' := Transition(s, id, target, txHash, clocks).0;
      Transition(s', id, target, txHash, clocks) == (s', Err(InvalidTransition(target, target)))
  {
    TransitionOutcome(s, id, target, txHash, clocks);
  }
}
