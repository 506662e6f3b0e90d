/**
 * The Postgres payment repository: two tables with their constraints. Each
 * operation is one statement, or one transaction, and so one atomic step. A
 * broken uniqueness constraint answers Conflict, any other refusal Database.
 */
module PaymentTable {
  import opened Wrappers
  import opened Collections
  import opened Decimals
  import opened Amounts
  import opened PaymentCore

  /** A row of `payments`; the amount is a count of 10^-7 units. */
  datatype Row = Row(
    id: Uuid,
    reference: string,
    amount: int,
    destination: string,
    memo: Option<string>,
    status: PaymentStatus,
    txHash: Option<string>,
    createdAt: Time,
    updatedAt: Time)

  datatype Table = Table(rows: map<Uuid, Row>, keys: map<string, Uuid>)

  const EMPTY := Table(map[], map[])

  function FromRow(row: Row): Payment {
    Payment(row.id, row.reference, Load(row.amount), row.destination, row.memo, row.status, row.txHash,
            row.createdAt, row.updatedAt)
  }

  function ToRow(payment: Payment, units: int): Row {
    Row(payment.id, payment.reference, units, payment.destination, payment.memo, payment.status, payment.txHash,
        payment.createdAt, payment.updatedAt)
  }

  // === Constraints

  predicate ReferenceTaken(t: Table, reference: string) {
    exists id :: id in t.rows && t.rows[id].reference == reference
  }

  /** Some row other than `id` holds this hash. Rows without a hash never clash. */
  predicate HashTaken(t: Table, id: Uuid, txHash: Option<string>) {
    txHash.Some? && exists other :: other in t.rows && other != id && t.rows[other].txHash == txHash
  }

  ghost predicate RowsKeyed(t: Table) {
    forall id :: id in t.rows ==> t.rows[id].id == id && FitsColumn(t.rows[id].amount)
  }

  ghost predicate UniqueReferences(t: Table) {
    forall a, b :: a in t.rows && b in t.rows && t.rows[a].reference == t.rows[b].reference ==> a == b
  }

  ghost predicate UniqueHashes(t: Table) {
    forall a, b ::
      a in t.rows && b in t.rows && t.rows[a].txHash.Some? && t.rows[a].txHash == t.rows[b].txHash ==> a == b
  }

  ghost predicate KeysPointToRows(t: Table) {
    forall key :: key in t.keys ==> t.keys[key] in t.rows
  }

  ghost predicate Constrained(t: Table) {
    RowsKeyed(t) && UniqueReferences(t) && UniqueHashes(t) && KeysPointToRows(t)
  }

  // === Creation

  predicate KeyTaken(t: Table, key: Option<string>) {
    key.Some? && key.value in t.keys
  }

  /** Some uniqueness constraint refuses the two inserts. */
  predicate Clashes(t: Table, payment: Payment, key: Option<string>) {
    || payment.id in t.rows
    || ReferenceTaken(t, payment.reference)
    || HashTaken(t, payment.id, payment.txHash)
    || KeyTaken(t, key)
  }

  /** Both inserts commit together or neither does. */
  function Create(t: Table, payment: Payment, key: Option<string>): (Table, Result<Payment, RepositoryError>) {
    match FromStr(payment.amount)
    case None => (t, Err(Database))
    case Some(amount) =>
      match Store(amount)
      case None => (t, Err(Database))
      case Some(units) =>
        if Clashes(t, payment, key) then (t, Err(Conflict))
        else
          var row := ToRow(payment, units);
          var keys := if key.Some? then t.keys[key.value := payment.id] else t.keys;
          (Table(t.rows[payment.id := row], keys), Ok(FromRow(row)))
  }

  /** What the table holds, as payments. */
  function Payments(t: Table): map<Uuid, Payment> {
    map id | id in t.rows :: FromRow(t.rows[id])
  }

  function FindById(t: Table, id: Uuid): Option<Payment> {
    if id in t.rows then Some(FromRow(t.rows[id])) else None
  }

  /** The join of a key with its payment. */
  function FindByIdempotencyKey(t: Table, key: string): Option<Payment> {
    if key in t.keys then FindById(t, t.keys[key]) else None
  }

  // === The guarded update

  function Moved(row: Row, next: PaymentStatus, txHash: Option<string>, now: Time): Row {
    row.(status := next, updatedAt := now, txHash := if txHash.Some? then txHash else row.txHash)
  }

  function UpdateStatus(t: Table, id: Uuid, next: PaymentStatus, txHash: Option<string>, now: Time)
    : (Table, Result<Payment, RepositoryError>)
  {
    if id !in t.rows then (t, Err(NotFound))
    else if !CanTransition(t.rows[id].status, next) then (t, Err(Conflict))
    else if HashTaken(t, id, txHash) then (t, Err(Conflict))
    else
      var row := Moved(t.rows[id], next, txHash, now);
      (t.(rows := t.rows[id := row]), Ok(FromRow(row)))
  }

  /** Rows awaiting reconciliation, oldest first; rows created together come in any order. */
  ghost predicate IsPendingList(t: Table, list: seq<Payment>) {
    && NoDuplicates(list)
    && (forall p :: p in list <==> p.id in t.rows && FromRow(t.rows[p.id]) == p && IsActive(p.status))
    && SortedBy(list, (p: Payment) => p.createdAt)
  }

  /** In the payments' own terms: each Pending or Detected one once, the oldest first. */
  lemma PendingListIs(t: Table, list: seq<Payment>)
    ensures IsPendingList(t, list) <==>
      && (forall p :: p in list <==>
            p.id in Payments(t) && Payments(t)[p.id] == p && (p.status == Pending || p.status == Detected))
      && (forall i, j :: 0 <= i < j < |list| ==> list[i].createdAt <= list[j].createdAt && list[i] != list[j])
  {
    DistinctIffNoDuplicates(list);
    var key := (p: Payment) => p.createdAt;
    assert SortedBy(list, key) <==> forall i, j :: 0 <= i < j < |list| ==> key(list[i]) <= key(list[j]);
  }

  // === Listing

  predicate HasStatus(status: PaymentStatus, wanted: Option<PaymentStatus>) {
    wanted.None? || status == wanted.value
  }

  /** Every row with the wanted status, newest first; rows created together come in any order. */
  ghost predicate IsNewestList(t: Table, wanted: Option<PaymentStatus>, list: seq<Payment>) {
    && NoDuplicates(list)
    && (forall p :: p in list <==> p.id in t.rows && FromRow(t.rows[p.id]) == p && HasStatus(p.status, wanted))
    && SortedBy(list, (p: Payment) => -p.createdAt)
  }

  lemma NewestListIs(t: Table, wanted: Option<PaymentStatus>, list: seq<Payment>)
    ensures IsNewestList(t, wanted, list) <==>
      && (forall p :: p in list <==>
            p.id in Payments(t) && Payments(t)[p.id] == p && (wanted.None? || wanted == Some(p.status)))
      && (forall i, j :: 0 <= i < j < |list| ==> list[i].createdAt >= list[j].createdAt && list[i] != list[j])
  {
    DistinctIffNoDuplicates(list);
    var key := (p: Payment) => -p.createdAt;
    assert SortedBy(list, key) <==> forall i, j :: 0 <= i < j < |list| ==> key(list[i]) <= key(list[j]);
  }

  function CountOf(t: Table, wanted: Option<PaymentStatus>): nat {
    |set id | id in t.rows && HasStatus(t.rows[id].status, wanted)|
  }

  // === What every operation keeps

  lemma NewReferenceStaysUnique(t: Table, row: Row)
    requires UniqueReferences(t) && row.id !in t.rows && !ReferenceTaken(t, row.reference)
    ensures UniqueReferences(t.(rows := t.rows[row.id := row]))
  {
    assert forall id :: id in t.rows ==> t.rows[id].reference != row.reference;
  }

  lemma FreeHashStaysUnique(t: Table, row: Row)
    requires UniqueHashes(t) && !HashTaken(t, row.id, row.txHash)
    ensures UniqueHashes(t.(rows := t.rows[row.id := row]))
  {
    assert row.txHash.Some? ==> forall id :: id in t.rows && id != row.id ==> t.rows[id].txHash != row.txHash;
  }

  lemma CreateKeepsConstraints(t: Table, payment: Payment, key: Option<string>)
    requires Constrained(t)
    ensures Constrained(Create(t, payment, key).0)
  {
    var t' := Create(t, payment, key).0;
    if t' != t {
      var row := t'.rows[payment.id];
      NewReferenceStaysUnique(t, row);
      FreeHashStaysUnique(t, row);
    }
  }

  lemma UpdateKeepsConstraints(t: Table, id: Uuid, next: PaymentStatus, txHash: Option<string>, now: Time)
    requires Constrained(t)
    ensures Constrained(UpdateStatus(t, id, next, txHash, now).0)
  {
    var t' := UpdateStatus(t, id, next, txHash, now).0;
    if t' != t {
      var row := t'.rows[id];
      assert t'.rows == t.rows[id := row] && row.reference == t.rows[id].reference;
      assert row.txHash.Some? ==> forall other :: other in t.rows && other != id ==> t.rows[other].txHash != row.txHash;
    }
  }

  // === How one row may change

  predicate StatusLater(a: PaymentStatus, b: PaymentStatus) {
    a == b || CanTransition(a, b) || (a.Pending? && IsTerminal(b))
  }

  /** Later versions of a row: fixed columns stay, the status moves forward, a hash never changes once set. */
  predicate RowLater(a: Row, b: Row) {
    && b == a.(status := b.status, txHash := b.txHash, updatedAt := b.updatedAt)
    && StatusLater(a.status, b.status)
    && (!a.status.Pending? ==> b.txHash == a.txHash)
    && (IsTerminal(a.status) ==> b == a)
  }

  /** Tables only grow, and every row of one is an earlier version of the other's. */
  ghost predicate TableLater(a: Table, b: Table) {
    && (forall id :: id in a.rows ==> id in b.rows && RowLater(a.rows[id], b.rows[id]))
    && (forall key :: key in a.keys ==> key in b.keys && b.keys[key] == a.keys[key])
  }

  lemma TableLaterTransitive(a: Table, b: Table, c: Table)
    requires TableLater(a, b) && TableLater(b, c)
    ensures TableLater(a, c)
  {
  }

  lemma CreateOnlyAdds(t: Table, payment: Payment, key: Option<string>)
    ensures TableLater(t, Create(t, payment, key).0)
  {
  }

  // === Hash and status

  /** A hash is stored exactly for payments that were seen on the ledger. */
  predicate HashMatchesStatus(row: Row) {
    row.txHash.Some? <==> !(row.status.Pending? || row.status.Expired?)
  }

  /** The hash argument callers pass along: one with Detected, none otherwise. */
  predicate HashGivenIffDetected(next: PaymentStatus, txHash: Option<string>) {
    txHash.Some? <==> next.Detected?
  }

  lemma UpdateMovesOneRow(t: Table, id: Uuid, next: PaymentStatus, txHash: Option<string>, now: Time)
    requires HashGivenIffDetected(next, txHash)
    ensures TableLater(t, UpdateStatus(t, id, next, txHash, now).0)
  {
  }
}
