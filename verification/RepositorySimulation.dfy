/**
 * The two payment repositories under the same sequential service calls: where
 * they answer alike, and exactly where they do not.
 */
module RepositorySimulation {
  import opened Wrappers
  import opened Decimals
  import opened Amounts
  import opened PaymentCore
  import opened PaymentService
  import PaymentRepository
  import PaymentTable

  // === Alike up to the text of amounts and the time of updates

  predicate SamePayment(a: Payment, b: Payment) {
    && b == a.(amount := b.amount, updatedAt := b.updatedAt)
    && AmountsMatch(a.amount, b.amount)
  }

  predicate SameResult(a: Result<Payment, PaymentError>, b: Result<Payment, PaymentError>) {
    match a
    case Ok(p) => b.Ok? && SamePayment(p, b.value)
    case Err(error) => b == Err(error)
  }

  /** The row stores this payment. */
  predicate Represents(row: PaymentTable.Row, p: Payment) {
    Valid(p.amount) && Store(FromStr(p.amount).value) == Some(row.amount)
    && row == PaymentTable.ToRow(p, row.amount).(updatedAt := row.updatedAt)
  }

  ghost predicate Related(m: PaymentRepository.Memory, t: PaymentTable.Table) {
    && PaymentRepository.Coherent(m)
    && m.payments.Keys == t.rows.Keys
    && (forall id :: id in m.payments ==> Represents(t.rows[id], m.payments[id]))
    && m.keys == t.keys
  }

  lemma RepresentedIsSame(row: PaymentTable.Row, p: Payment)
    requires Represents(row, p)
    ensures SamePayment(p, PaymentTable.FromRow(row))
  {
    StorageRoundTrip(p.amount);
  }

  lemma FindsAgree(m: PaymentRepository.Memory, t: PaymentTable.Table, id: Uuid)
    requires Related(m, t)
    ensures FindById(InMemory(m), id).Some? <==> FindById(Postgres(t), id).Some?
    ensures FindById(InMemory(m), id).Some? ==>
      SamePayment(FindById(InMemory(m), id).value, FindById(Postgres(t), id).value)
  {
    if id in m.payments {
      RepresentedIsSame(t.rows[id], m.payments[id]);
    }
  }

  lemma KeyFindsAgree(m: PaymentRepository.Memory, t: PaymentTable.Table, key: string)
    requires Related(m, t)
    ensures FindByIdempotencyKey(InMemory(m), key).Some? <==> key in m.keys
    ensures FindByIdempotencyKey(Postgres(t), key).Some? <==> key in m.keys
    ensures key in m.keys ==>
      SamePayment(FindByIdempotencyKey(InMemory(m), key).value, FindByIdempotencyKey(Postgres(t), key).value)
  {
    if key in m.keys {
      FindsAgree(m, t, m.keys[key]);
    }
  }

  lemma ReferencesAgree(m: PaymentRepository.Memory, t: PaymentTable.Table, reference: string)
    requires Related(m, t)
    ensures PaymentRepository.ReferenceTaken(m, reference) <==> PaymentTable.ReferenceTaken(t, reference)
  {
    forall id | id in m.payments ensures t.rows[id].reference == m.payments[id].reference {
      assert Represents(t.rows[id], m.payments[id]);
    }
    if PaymentTable.ReferenceTaken(t, reference) {
      var id :| id in t.rows && t.rows[id].reference == reference;
      assert m.payments[id].reference == reference;
    }
  }

  // === Creation

  predicate KeyStored(m: PaymentRepository.Memory, key: Option<string>) {
    key.Some? && key.value in m.keys
  }

  /** The column can hold the amount: it is below 10^13. */
  predicate FitsNumeric(amount: string) {
    FromStr(amount).Some? && Store(FromStr(amount).value).Some?
  }

  predicate NewTo(m: PaymentRepository.Memory, p: Payment, key: Option<string>) {
    p.id !in m.payments && p.txHash.None? && Valid(p.amount) && !KeyStored(m, key)
  }

  lemma ClashIffReferenceTaken(m: PaymentRepository.Memory, t: PaymentTable.Table, p: Payment, key: Option<string>)
    requires Related(m, t) && NewTo(m, p, key)
    ensures PaymentTable.Clashes(t, p, key) <==> PaymentRepository.ReferenceTaken(m, p.reference)
  {
    ReferencesAgree(m, t, p.reference);
  }

  /** Storing a payment here and its row there keeps the two related. */
  lemma StoringKeepsRelated(m: PaymentRepository.Memory, t: PaymentTable.Table, p: Payment, row: PaymentTable.Row,
                            keys: map<string, Uuid>)
    requires Related(m, t) && Represents(row, p)
    requires PaymentRepository.Coherent(PaymentRepository.Memory(m.payments[p.id := p], keys))
    ensures Related(PaymentRepository.Memory(m.payments[p.id := p], keys),
                    PaymentTable.Table(t.rows[p.id := row], keys))
  {
  }

  lemma InsertsAreRelated(m: PaymentRepository.Memory, t: PaymentTable.Table, p: Payment, key: Option<string>)
    requires Related(m, t) && NewTo(m, p, key) && !PaymentRepository.ReferenceTaken(m, p.reference)
    requires FitsNumeric(p.amount)
    ensures Related(PaymentRepository.Create(m, p, key).0, PaymentTable.Create(t, p, key).0)
  {
    var row := PaymentTable.ToRow(p, Units(FromStr(p.amount).value));
    ClashIffReferenceTaken(m, t, p, key);
    PaymentRepository.CreateKeepsCoherent(m, p, key);
    assert Represents(row, p);
    StoringKeepsRelated(m, t, p, row, PaymentRepository.WithKey(m.keys, key, p.id));
  }

  lemma CreatesAgree(m: PaymentRepository.Memory, t: PaymentTable.Table, p: Payment, key: Option<string>)
    requires Related(m, t) && NewTo(m, p, key) && FitsNumeric(p.amount)
    ensures Related(PaymentRepository.Create(m, p, key).0, PaymentTable.Create(t, p, key).0)
    ensures PaymentRepository.Create(m, p, key).1.Ok? ==>
      && PaymentTable.Create(t, p, key).1.Ok?
      && SamePayment(p, PaymentTable.Create(t, p, key).1.value)
    ensures PaymentRepository.Create(m, p, key).1.Err? ==> PaymentTable.Create(t, p, key).1 == Err(Conflict)
  {
    ClashIffReferenceTaken(m, t, p, key);
    if !PaymentRepository.ReferenceTaken(m, p.reference) {
      var units := Units(FromStr(p.amount).value);
      InsertsAreRelated(m, t, p, key);
      RepresentedIsSame(PaymentTable.ToRow(p, units), p);
    }
  }

  // === Transitions

  /** An update moves payment and row together. */
  lemma MovesAreRelated(m: PaymentRepository.Memory, t: PaymentTable.Table, id: Uuid, next: PaymentStatus,
                        txHash: Option<string>, clocks: Clocks)
    requires Related(m, t) && id in m.payments
    ensures Represents(PaymentTable.Moved(t.rows[id], next, txHash, clocks.database),
                       PaymentRepository.Moved(m.payments[id], next, txHash, clocks.process))
  {
    assert Represents(t.rows[id], m.payments[id]);
  }

  lemma StatusesAgree(m: PaymentRepository.Memory, t: PaymentTable.Table, id: Uuid)
    requires Related(m, t) && id in m.payments
    ensures id in t.rows && t.rows[id].status == m.payments[id].status
  {
    assert Represents(t.rows[id], m.payments[id]);
  }

  /** A legal move with a free hash succeeds on both sides alike. */
  lemma UpdatesAgree(m: PaymentRepository.Memory, t: PaymentTable.Table, id: Uuid, next: PaymentStatus,
                     txHash: Option<string>, clocks: Clocks)
    requires Related(m, t) && id in m.payments && CanTransition(m.payments[id].status, next)
    requires !PaymentTable.HashTaken(t, id, txHash)
    ensures Related(PaymentRepository.UpdateStatus(m, id, next, txHash, clocks.process).0,
                    PaymentTable.UpdateStatus(t, id, next, txHash, clocks.database).0)
    ensures PaymentTable.UpdateStatus(t, id, next, txHash, clocks.database).1.Ok?
    ensures SamePayment(PaymentRepository.Moved(m.payments[id], next, txHash, clocks.process),
                        PaymentTable.UpdateStatus(t, id, next, txHash, clocks.database).1.value)
  {
    var p := PaymentRepository.Moved(m.payments[id], next, txHash, clocks.process);
    var row := PaymentTable.Moved(t.rows[id], next, txHash, clocks.database);
    StatusesAgree(m, t, id);
    MovesAreRelated(m, t, id, next, txHash, clocks);
    PaymentRepository.UpdateKeepsCoherent(m, id, next, txHash, clocks.process);
    StoringKeepsRelated(m, t, p, row, m.keys);
    RepresentedIsSame(row, p);
  }

  // === The calls

  datatype PaymentCall =
    | Creation(request: Request)
    | MarkDetected(id: Uuid, txHash: string, clocks: Clocks)
    | Confirm(id: Uuid, clocks: Clocks)
    | Fail(id: Uuid, clocks: Clocks)
    | Expire(id: Uuid, clocks: Clocks)
    | Get(id: Uuid)

  function Answer(s: Backend, call: PaymentCall, defaultDestination: string): (Backend, Result<Payment, PaymentError>) {
    match call
    case Creation(request) => CreatePayment(s, request, defaultDestination)
    case MarkDetected(id, txHash, clocks) => Transition(s, id, Detected, Some(txHash), clocks)
    case Confirm(id, clocks) => Transition(s, id, Confirmed, None, clocks)
    case Fail(id, clocks) => Transition(s, id, Failed, None, clocks)
    case Expire(id, clocks) => Transition(s, id, Expired, None, clocks)
    case Get(id) => (s, GetPayment(s, id))
  }

  /** Ids are drawn at random: a creation never draws one in use. */
  predicate FreshId(m: PaymentRepository.Memory, call: PaymentCall) {
    call.Creation? ==> call.request.id !in m.payments
  }

  /**
   * The two disagreements: an amount the column cannot hold, and a hash that
   * another payment already carries.
   */
  predicate Disagree(m: PaymentRepository.Memory, call: PaymentCall) {
    match call
    case Creation(r) => Valid(r.amount) && !KeyStored(m, r.key) && !FitsNumeric(r.amount)
    case MarkDetected(id, txHash, _) =>
      && id in m.payments && m.payments[id].status.Pending?
      && exists other :: other in m.payments && other != id && m.payments[other].txHash == Some(txHash)
    case _ => false
  }

  /** What both sides answer, and the states they are left in. */
  ghost predicate Alike(a: (Backend, Result<Payment, PaymentError>), b: (Backend, Result<Payment, PaymentError>)) {
    && a.0.InMemory? && b.0.Postgres?
    && Related(a.0.memory, b.0.table)
    && SameResult(a.1, b.1)
  }

  /** A legal early read leaves the outcome to the update. */
  lemma LegalReadUpdates(s: Backend, id: Uuid, next: PaymentStatus, txHash: Option<string>, clocks: Clocks)
    requires FindById(s, id).Some? && CanTransition(FindById(s, id).value.status, next)
    ensures
      var (s', r) := UpdateIn(s, id, next, txHash, clocks);
      Transition(s, id, next, txHash, clocks) ==
        (s', match r case Ok(updated) => Ok(updated) case Err(error) => Err(Repository(error)))
  {
  }

  lemma LegalTransitionsAgree(m: PaymentRepository.Memory, t: PaymentTable.Table, id: Uuid, next: PaymentStatus,
                              txHash: Option<string>, clocks: Clocks)
    requires Related(m, t) && id in m.payments && CanTransition(m.payments[id].status, next)
    ensures Alike(Transition(InMemory(m), id, next, txHash, clocks), Transition(Postgres(t), id, next, txHash, clocks))
       <==> !PaymentTable.HashTaken(t, id, txHash)
  {
    StatusesAgree(m, t, id);
    LegalReadUpdates(InMemory(m), id, next, txHash, clocks);
    LegalReadUpdates(Postgres(t), id, next, txHash, clocks);
    if PaymentTable.HashTaken(t, id, txHash) {
      assert PaymentTable.UpdateStatus(t, id, next, txHash, clocks.database).1 == Err(Conflict);
    } else {
      UpdatesAgree(m, t, id, next, txHash, clocks);
    }
  }

  lemma TransitionsAgree(m: PaymentRepository.Memory, t: PaymentTable.Table, id: Uuid, next: PaymentStatus,
                         txHash: Option<string>, clocks: Clocks)
    requires Related(m, t)
    ensures Alike(Transition(InMemory(m), id, next, txHash, clocks), Transition(Postgres(t), id, next, txHash, clocks))
       <==> !(id in m.payments && CanTransition(m.payments[id].status, next) && PaymentTable.HashTaken(t, id, txHash))
  {
    if id in m.payments {
      if CanTransition(m.payments[id].status, next) {
        LegalTransitionsAgree(m, t, id, next, txHash, clocks);
      } else {
        StatusesAgree(m, t, id);
      }
    }
  }

  /** A key not seen before leaves the outcome to the insert. */
  lemma UnseenKeyInserts(s: Backend, p: Payment, key: Option<string>)
    requires key.Some? ==> FindByIdempotencyKey(s, key.value).None?
    ensures
      var (s', r) := CreateIn(s, p, key);
      CreateWithIdempotency(s, p, key) ==
        (s', match r
             case Ok(created) => Ok(created)
             case Err(error) =>
               if error.Conflict? then Err(DuplicateReference(p.reference)) else Err(Repository(error)))
  {
  }

  lemma NewPaymentsAgree(m: PaymentRepository.Memory, t: PaymentTable.Table, p: Payment, key: Option<string>)
    requires Related(m, t) && NewTo(m, p, key) && FitsNumeric(p.amount)
    ensures Alike(CreateWithIdempotency(InMemory(m), p, key), CreateWithIdempotency(Postgres(t), p, key))
  {
    UnseenKeyInserts(InMemory(m), p, key);
    UnseenKeyInserts(Postgres(t), p, key);
    CreatesAgree(m, t, p, key);
  }

  lemma LargeAmountIsRefused(m: PaymentRepository.Memory, t: PaymentTable.Table, p: Payment, key: Option<string>)
    requires Related(m, t) && NewTo(m, p, key) && !FitsNumeric(p.amount)
    ensures CreateWithIdempotency(Postgres(t), p, key) == (Postgres(t), Err(Repository(Database)))
    ensures CreateWithIdempotency(InMemory(m), p, key).1
         == if PaymentRepository.ReferenceTaken(m, p.reference) then Err(DuplicateReference(p.reference)) else Ok(p)
  {
    UnseenKeyInserts(InMemory(m), p, key);
    UnseenKeyInserts(Postgres(t), p, key);
    assert PaymentTable.Create(t, p, key) == (t, Err(Database));
  }

  lemma CreationsAgree(m: PaymentRepository.Memory, t: PaymentTable.Table, r: Request, defaultDestination: string)
    requires Related(m, t) && r.id !in m.payments
    ensures Alike(CreatePayment(InMemory(m), r, defaultDestination), CreatePayment(Postgres(t), r, defaultDestination))
       <==> !Disagree(m, Creation(r))
  {
    if Valid(r.amount) {
      if KeyStored(m, r.key) {
        KeyFindsAgree(m, t, r.key.value);
      } else {
        var p := Requested(r, defaultDestination);
        if FitsNumeric(r.amount) {
          NewPaymentsAgree(m, t, p, r.key);
        } else {
          LargeAmountIsRefused(m, t, p, r.key);
        }
      }
    }
  }

  /** The hashes of memory and table are the same. */
  lemma HashesAgree(m: PaymentRepository.Memory, t: PaymentTable.Table, id: Uuid, txHash: string)
    requires Related(m, t)
    ensures PaymentTable.HashTaken(t, id, Some(txHash)) <==>
      exists other :: other in m.payments && other != id && m.payments[other].txHash == Some(txHash)
  {
    forall other | other in m.payments ensures t.rows[other].txHash == m.payments[other].txHash {
      assert Represents(t.rows[other], m.payments[other]);
    }
  }

  /** One call: the same answer and related states, except in exactly the two cases named. */
  lemma PaymentCallsAgree(
    m: PaymentRepository.Memory, t: PaymentTable.Table, call: PaymentCall, defaultDestination: string)
    requires Related(m, t) && FreshId(m, call)
    ensures Alike(Answer(InMemory(m), call, defaultDestination), Answer(Postgres(t), call, defaultDestination))
       <==> !Disagree(m, call)
  {
    match call
    case Creation(r) => CreationsAgree(m, t, r, defaultDestination);
    case MarkDetected(id, txHash, clocks) =>
      TransitionsAgree(m, t, id, Detected, Some(txHash), clocks);
      HashesAgree(m, t, id, txHash);
    case Confirm(id, clocks) => TransitionsAgree(m, t, id, Confirmed, None, clocks);
    case Fail(id, clocks) => TransitionsAgree(m, t, id, Failed, None, clocks);
    case Expire(id, clocks) => TransitionsAgree(m, t, id, Expired, None, clocks);
    case Get(id) => FindsAgree(m, t, id);
  }

  lemma SharedHashIsRefused(
    m: PaymentRepository.Memory, t: PaymentTable.Table, id: Uuid, txHash: string, clocks: Clocks)
    requires Related(m, t) && Disagree(m, MarkDetected(id, txHash, clocks))
    ensures Transition(Postgres(t), id, Detected, Some(txHash), clocks) == (Postgres(t), Err(Repository(Conflict)))
    ensures Transition(InMemory(m), id, Detected, Some(txHash), clocks).1.Ok?
  {
    HashesAgree(m, t, id, txHash);
    StatusesAgree(m, t, id);
    LegalReadUpdates(InMemory(m), id, Detected, Some(txHash), clocks);
    LegalReadUpdates(Postgres(t), id, Detected, Some(txHash), clocks);
    assert PaymentTable.UpdateStatus(t, id, Detected, Some(txHash), clocks.database) == (t, Err(Conflict));
  }

  /** In those two cases the table refuses and is left alone; memory refuses at most a repeated reference. */
  lemma OnlyTheTableRefuses(
    m: PaymentRepository.Memory, t: PaymentTable.Table, call: PaymentCall, defaultDestination: string)
    requires Related(m, t) && FreshId(m, call) && Disagree(m, call)
    ensures Answer(Postgres(t), call, defaultDestination)
         == (Postgres(t), Err(Repository(if call.Creation? then Database else Conflict)))
    ensures Answer(InMemory(m), call, defaultDestination).1.Err? ==>
      && call.Creation?
      && Answer(InMemory(m), call, defaultDestination).1 == Err(DuplicateReference(call.request.reference))
  {
    match call
    case Creation(r) => LargeAmountIsRefused(m, t, Requested(r, defaultDestination), r.key);
    case MarkDetected(id, txHash, clocks) => SharedHashIsRefused(m, t, id, txHash, clocks);
  }
}
