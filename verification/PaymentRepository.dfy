/**
 * The in-memory payment repository: two maps behind one lock. Every operation
 * holds the lock for its whole duration, so each is one atomic step.
 */
module PaymentRepository {
  import opened Wrappers
  import opened Collections
  import opened HashTable
  import opened PaymentCore
  import opened Pagination

  // === Transition guard

  const ALL_STATUSES: seq<PaymentStatus> := [Pending, Detected, Confirmed, Failed, Expired]

  /** The statuses from which `target` may be entered. */
  function ValidFromStates(target: PaymentStatus): seq<PaymentStatus> {
    Filter(ALL_STATUSES, from => CanTransition(from, target))
  }

  /** The set-based guard and the transition relation agree, on every pair. */
  lemma GuardIsRelation(from: PaymentStatus, target: PaymentStatus)
    ensures from in ValidFromStates(target) <==> CanTransition(from, target)
    ensures IsTerminal(from) <==> forall next :: from !in ValidFromStates(next)
  {
    assert from in ALL_STATUSES by {
      assert ALL_STATUSES[0] == Pending && ALL_STATUSES[1] == Detected && ALL_STATUSES[2] == Confirmed;
      assert ALL_STATUSES[3] == Failed && ALL_STATUSES[4] == Expired;
    }
    if from.Pending? {
      assert from in ValidFromStates(Detected);
    } else if from.Detected? {
      assert from in ValidFromStates(Confirmed);
    }
  }

  // === Contents

  datatype Memory = Memory(payments: map<Uuid, Payment>, keys: map<string, Uuid>)

  predicate ReferenceTaken(m: Memory, reference: string) {
    exists id :: id in m.payments && m.payments[id].reference == reference
  }

  /** Payments sit under their own id, references are unique, no key dangles. */
  ghost predicate Coherent(m: Memory) {
    && (forall id :: id in m.payments ==> m.payments[id].id == id)
    && (forall a, b ::
          a in m.payments && b in m.payments && m.payments[a].reference == m.payments[b].reference ==> a == b)
    && (forall key :: key in m.keys ==> m.keys[key] in m.payments)
  }

  function WithKey(keys: map<string, Uuid>, key: Option<string>, id: Uuid): map<string, Uuid> {
    if key.Some? then keys[key.value := id] else keys
  }

  function Create(m: Memory, payment: Payment, key: Option<string>): (Memory, Result<Payment, RepositoryError>) {
    if ReferenceTaken(m, payment.reference) then (m, Err(Conflict))
    else (Memory(m.payments[payment.id := payment], WithKey(m.keys, key, payment.id)), Ok(payment))
  }

  function FindById(m: Memory, id: Uuid): Option<Payment> {
    if id in m.payments then Some(m.payments[id]) else None
  }

  function FindByIdempotencyKey(m: Memory, key: string): Option<Payment> {
    if key in m.keys then FindById(m, m.keys[key]) else None
  }

  /** A payment moved to `next`; a hash replaces the stored one only when given. */
  function Moved(payment: Payment, next: PaymentStatus, txHash: Option<string>, now: Time): Payment {
    payment.(status := next, updatedAt := now, txHash := if txHash.Some? then txHash else payment.txHash)
  }

  function UpdateStatus(m: Memory, id: Uuid, next: PaymentStatus, txHash: Option<string>, now: Time)
    : (Memory, Result<Payment, RepositoryError>)
  {
    if id !in m.payments then (m, Err(NotFound))
    else if !CanTransition(m.payments[id].status, next) then (m, Err(Conflict))
    else
      var moved := Moved(m.payments[id], next, txHash, now);
      (m.(payments := m.payments[id := moved]), Ok(moved))
  }

  lemma CreateKeepsCoherent(m: Memory, payment: Payment, key: Option<string>)
    requires Coherent(m)
    ensures Coherent(Create(m, payment, key).0)
  {
  }

  lemma UpdateKeepsCoherent(m: Memory, id: Uuid, next: PaymentStatus, txHash: Option<string>, now: Time)
    requires Coherent(m)
    ensures Coherent(UpdateStatus(m, id, next, txHash, now).0)
  {
    var m' := UpdateStatus(m, id, next, txHash, now).0;
    assert forall a :: a in m.payments ==> m'.payments[a].reference == m.payments[a].reference;
  }

  // === Listing

  function IdOf(): Payment -> Uuid {
    (p: Payment) => p.id
  }

  function Active(): Payment -> bool {
    (p: Payment) => IsActive(p.status)
  }

  function ByCreation(): Payment -> int {
    (p: Payment) => p.createdAt
  }

  function NewestFirst(): Payment -> int {
    (p: Payment) => -p.createdAt
  }

  function HasStatus(status: Option<PaymentStatus>): Payment -> bool {
    (p: Payment) => status.None? || p.status == status.value
  }

  /** Every payment with the wanted status, newest first. */
  function Newest(m: Memory, order: seq<Uuid>, status: Option<PaymentStatus>): seq<Payment>
    requires forall id :: id in order ==> id in m.payments
  {
    SortBy(Selected(m.payments, order, HasStatus(status)), NewestFirst())
  }

  function CountOf(m: Memory, status: Option<PaymentStatus>): nat {
    |Matching(m.payments, m.payments.Keys, HasStatus(status))|
  }

  /** In the payments' own terms: the stored ones with the wanted status, each once, the newest first. */
  lemma NewestIs(m: Memory, order: seq<Uuid>, status: Option<PaymentStatus>)
    requires Coherent(m) && Enumerates(order, m.payments.Keys)
    ensures
      var list := Newest(m, order, status);
      && (forall p :: p in list <==>
            p.id in m.payments && m.payments[p.id] == p && (status.None? || status == Some(p.status)))
      && (forall i, j :: 0 <= i < j < |list| ==> list[i].createdAt >= list[j].createdAt && list[i] != list[j])
  {
    SelectedListsOnce(m.payments, order, IdOf(), HasStatus(status), NewestFirst());
    var list := Newest(m, order, status);
    forall i, j | 0 <= i < j < |list| ensures NewestFirst()(list[i]) <= NewestFirst()(list[j]) && list[i] != list[j] {
      DistinctIndices(list, i, j);
    }
  }

  lemma NewestSize(m: Memory, order: seq<Uuid>, status: Option<PaymentStatus>)
    requires Enumerates(order, m.payments.Keys)
    ensures |Newest(m, order, status)| == |Selected(m.payments, order, HasStatus(status))| == CountOf(m, status)
  {
    var selected := HasStatus(status);
    SelectedSize(m.payments, order, m.payments.Keys, selected);
    SameMembers(Newest(m, order, status), Selected(m.payments, order, selected));
  }

  /**
   * Concatenating all pages of a repository that does not change meanwhile
   * gives every matching payment exactly once, newest first, and the page
   * lengths add up to the total the endpoint reports.
   */
  lemma PagesTileTheListing(m: Memory, order: seq<Uuid>, status: Option<PaymentStatus>, perPage: u32, n: u32)
    requires Coherent(m) && Enumerates(order, m.payments.Keys)
    requires n * perPage >= CountOf(m, status)
    requires RowsBefore(n, perPage) < U32_LIMIT
    ensures
      var pages := PagesUpTo(Newest(m, order, status), perPage, n);
      && pages == Newest(m, order, status)
      && (forall p :: p in pages <==>
            p.id in m.payments && m.payments[p.id] == p && (status.None? || status == Some(p.status)))
      && (forall i, j :: 0 <= i < j < |pages| ==> pages[i].createdAt >= pages[j].createdAt && pages[i] != pages[j])
    ensures LengthsUpTo(Newest(m, order, status), perPage, n) == CountOf(m, status)
  {
    NewestIs(m, order, status);
    NewestSize(m, order, status);
    PagesTile(Newest(m, order, status), perPage, n);
  }

  function CountAmong(m: Memory, ids: set<Uuid>, status: PaymentStatus): nat
    requires ids <= m.payments.Keys
  {
    |Matching(m.payments, ids, HasStatus(Some(status)))|
  }

  lemma CountWithout(m: Memory, ids: set<Uuid>, id: Uuid, status: PaymentStatus)
    requires id in ids && ids <= m.payments.Keys
    ensures CountAmong(m, ids, status)
         == CountAmong(m, ids - {id}, status) + if m.payments[id].status == status then 1 else 0
  {
    var others := Matching(m.payments, ids - {id}, HasStatus(Some(status)));
    assert Matching(m.payments, ids, HasStatus(Some(status)))
        == if m.payments[id].status == status then others + {id} else others;
  }

  lemma {:induction false} StatusesPartition(m: Memory, ids: set<Uuid>)
    requires ids <= m.payments.Keys
    ensures |ids| == CountAmong(m, ids, Pending) + CountAmong(m, ids, Detected) + CountAmong(m, ids, Confirmed)
                   + CountAmong(m, ids, Failed) + CountAmong(m, ids, Expired)
  {
    if ids != {} {
      var id :| id in ids;
      StatusesPartition(m, ids - {id});
      CountWithout(m, ids, id, Pending);
      CountWithout(m, ids, id, Detected);
      CountWithout(m, ids, id, Confirmed);
      CountWithout(m, ids, id, Failed);
      CountWithout(m, ids, id, Expired);
    }
  }

  /** The five per-status counts add up to the unfiltered count. */
  lemma StatusCountsAddUp(m: Memory)
    ensures CountOf(m, None)
         == CountOf(m, Some(Pending)) + CountOf(m, Some(Detected)) + CountOf(m, Some(Confirmed))
          + CountOf(m, Some(Failed)) + CountOf(m, Some(Expired))
  {
    StatusesPartition(m, m.payments.Keys);
    assert Matching(m.payments, m.payments.Keys, HasStatus(None)) == m.payments.Keys;
  }

  // === The repository

  class InMemoryPaymentRepository {
    var payments: map<Uuid, Payment>
    var keys: map<string, Uuid>
    /** The iteration order of the hash table: arbitrary, fixed between insertions. */
    var order: seq<Uuid>

    ghost predicate Valid()
      reads this
    {
      Coherent(Contents()) && Enumerates(order, payments.Keys)
    }

    function Contents(): Memory
      reads this
    {
      Memory(payments, keys)
    }

    constructor ()
      ensures Valid() && Contents() == Memory(map[], map[])
    {
      payments, keys, order := map[], map[], [];
    }

    method CreateWithIdempotencyKey(payment: Payment, key: Option<string>)
      returns (r: Result<Payment, RepositoryError>)
      requires Valid()
      modifies this
      ensures Valid()
      ensures (Contents(), r) == Create(old(Contents()), payment, key)
    {
      var i := 0;
      while i < |order|
        invariant 0 <= i <= |order|
        invariant forall j :: 0 <= j < i ==> payments[order[j]].reference != payment.reference
      {
        if payments[order[i]].reference == payment.reference {
          return Err(Conflict);
        }
        i := i + 1;
      }
      assert !ReferenceTaken(Contents(), payment.reference) by {
        forall id | id in payments ensures payments[id].reference != payment.reference {
          assert id in order;
        }
      }
      CreateKeepsCoherent(Contents(), payment, key);
      payments := payments[payment.id := payment];
      if key.Some? {
        keys := keys[key.value := payment.id];
      }
      order := AnyOrder(payments.Keys);
      return Ok(payment);
    }

    method Find(id: Uuid) returns (r: Option<Payment>)
      ensures r == FindById(Contents(), id)
    {
      r := if id in payments then Some(payments[id]) else None;
    }

    method FindByReference(reference: string) returns (r: Option<Payment>)
      requires Valid()
      ensures r.Some? <==> ReferenceTaken(Contents(), reference)
      ensures r.Some? ==> r.value.reference == reference && FindById(Contents(), r.value.id) == r
    {
      var i := 0;
      while i < |order|
        invariant 0 <= i <= |order|
        invariant forall j :: 0 <= j < i ==> payments[order[j]].reference != reference
      {
        if payments[order[i]].reference == reference {
          return Some(payments[order[i]]);
        }
        i := i + 1;
      }
      forall id | id in payments ensures payments[id].reference != reference {
        assert id in order;
      }
      return None;
    }

    method FindByKey(key: string) returns (r: Option<Payment>)
      requires Valid()
      ensures r == FindByIdempotencyKey(Contents(), key)
      ensures r.Some? <==> key in keys
    {
      if key !in keys {
        return None;
      }
      r := Find(keys[key]);
    }

    method Update(id: Uuid, next: PaymentStatus, txHash: Option<string>, now: Time)
      returns (r: Result<Payment, RepositoryError>)
      requires Valid()
      modifies this`payments
      ensures Valid()
      ensures (Contents(), r) == UpdateStatus(old(Contents()), id, next, txHash, now)
      ensures payments.Keys == old(payments.Keys)
    {
      var allowed := ValidFromStates(next);
      if id !in payments {
        return Err(NotFound);
      }
      var payment := payments[id];
      GuardIsRelation(payment.status, next);
      if payment.status !in allowed {
        return Err(Conflict);
      }
      payment := payment.(status := next);
      payment := payment.(updatedAt := now);
      if txHash.Some? {
        payment := payment.(txHash := txHash);
      }
      UpdateKeepsCoherent(Contents(), id, next, txHash, now);
      payments := payments[id := payment];
      return Ok(payment);
    }

    method ListPendingForReconciliation() returns (pending: seq<Payment>)
      requires Valid()
      ensures pending == SortBy(Selected(payments, order, Active()), ByCreation())
      ensures ListsOnce(pending, payments, IdOf(), Active())
      ensures forall p :: p in pending <==>
        p.id in payments && payments[p.id] == p && (p.status == Pending || p.status == Detected)
      ensures forall i, j :: 0 <= i < j < |pending| ==>
        pending[i].createdAt <= pending[j].createdAt && pending[i] != pending[j]
    {
      pending := Collect(payments, order, Active());
      pending := SortBy(pending, ByCreation());
      SelectedListsOnce(payments, order, IdOf(), Active(), ByCreation());
      forall i, j | 0 <= i < j < |pending|
        ensures ByCreation()(pending[i]) <= ByCreation()(pending[j]) && pending[i] != pending[j]
      {
        DistinctIndices(pending, i, j);
      }
    }

    method ListPaginated(status: Option<PaymentStatus>, page: u32, perPage: u32) returns (r: seq<Payment>)
      requires Valid()
      ensures r == PageOf(Newest(Contents(), order, status), page, perPage)
      ensures forall p :: p in r ==>
        p.id in payments && payments[p.id] == p && (status.None? || status == Some(p.status))
      ensures forall i, j :: 0 <= i < j < |r| ==> r[i].createdAt >= r[j].createdAt && r[i] != r[j]
    {
      var matching := Collect(payments, order, HasStatus(status));
      matching := SortBy(matching, NewestFirst());
      r := Window(matching, Offset(page, perPage), perPage);
      NewestIs(Contents(), order, status);
      forall i | 0 <= i < |r|
        ensures Offset(page, perPage) + i < |matching| && r[i] == matching[Offset(page, perPage) + i]
      {
        PageAt(matching, page, perPage, i);
      }
    }

    method Count(status: Option<PaymentStatus>) returns (total: nat)
      requires Valid()
      ensures total == CountOf(Contents(), status)
      ensures total == |set id | id in payments && (status.None? || status == Some(payments[id].status))|
    {
      var matching := Collect(payments, order, HasStatus(status));
      NewestSize(Contents(), order, status);
      total := |matching|;
      assert Matching(payments, payments.Keys, HasStatus(status))
          == set id | id in payments && (status.None? || status == Some(payments[id].status));
    }
  }
}
