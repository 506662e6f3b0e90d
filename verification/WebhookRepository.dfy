/**
 * The in-memory webhook event repository: one map of event records behind one
 * lock, so that every operation is one atomic step.
 */
module WebhookRepository {
  import opened Wrappers
  import opened Collections
  import opened HashTable
  import PaymentCore

  type Uuid = PaymentCore.Uuid
  type Time = PaymentCore.Time

  datatype EventStatus = Pending | Delivered | Failed

  datatype EventRecord = EventRecord(
    id: Uuid,
    paymentId: Uuid,
    eventType: string,
    payload: PaymentCore.PaymentEvent,
    status: EventStatus,
    attempts: nat,
    nextAttemptAt: Option<Time>,
    deliveredAt: Option<Time>,
    createdAt: Time,
    updatedAt: Time)

  type Events = map<Uuid, EventRecord>

  datatype MarkError = NotFound

  function NewRecord(id: Uuid, payload: PaymentCore.PaymentEvent, now: Time): EventRecord {
    EventRecord(id, payload.payment.id, PaymentCore.EventType(payload), payload, Pending, 0, Some(now), None, now, now)
  }

  // === Fetching

  predicate IsDue(r: EventRecord, now: Time) {
    r.status.Pending? && r.nextAttemptAt.Some? && r.nextAttemptAt.value <= now
  }

  function Due(now: Time): EventRecord -> bool {
    (r: EventRecord) => IsDue(r, now)
  }

  /** Sorting by an optional time puts a missing one first; due records all have one. */
  function NextAttempt(): EventRecord -> int {
    (r: EventRecord) => if r.nextAttemptAt.Some? then r.nextAttemptAt.value else 0
  }

  function EventId(): EventRecord -> Uuid {
    (r: EventRecord) => r.id
  }

  function Limit(limit: int): nat {
    if limit < 0 then 0 else limit
  }

  /**
   * A batch of due records, earliest first. It is short of the limit only when
   * it holds every due record; otherwise whatever it leaves out is due no
   * earlier than anything it holds. Ties may fall either way.
   */
  ghost predicate IsDueBatch(events: Events, now: Time, limit: int, batch: seq<EventRecord>) {
    && NoDuplicates(batch)
    && (forall r :: r in batch ==> r.id in events && events[r.id] == r && IsDue(r, now))
    && SortedBy(batch, NextAttempt())
    && |batch| <= Limit(limit)
    && (forall id, r :: id in events && IsDue(events[id], now) && events[id] !in batch && r in batch ==>
          NextAttempt()(r) <= NextAttempt()(events[id]))
    && ((exists id :: id in events && IsDue(events[id], now) && events[id] !in batch) ==> |batch| == Limit(limit))
  }

  lemma PrefixIsDueBatch(events: Events, now: Time, limit: int, due: seq<EventRecord>)
    requires ListsOnce(due, events, EventId(), Due(now)) && SortedBy(due, NextAttempt())
    requires KeyedBy(events, EventId())
    ensures IsDueBatch(events, now, limit, if |due| <= Limit(limit) then due else due[..Limit(limit)])
  {
    forall id | id in events && IsDue(events[id], now) ensures events[id] in due {
      assert EventId()(events[id]) == id;
    }
    if |due| > Limit(limit) {
      SortedPrefix(due, NextAttempt(), Limit(limit));
      assert forall r :: r in due[..Limit(limit)] ==> r in due;
    }
  }

  /** The record waits for an attempt at this time. */
  predicate WaitsFor(r: EventRecord, at: Time) {
    r.status == Pending && r.nextAttemptAt == Some(at)
  }

  /**
   * In the columns' own terms: the batch is of stored records whose attempt
   * was to be made by now, earliest first, no more than the limit; a record
   * left out that was due by now too is due no earlier than any in the batch,
   * and the batch is then full.
   */
  ghost predicate IsEarliestDue(events: Events, now: Time, limit: int, batch: seq<EventRecord>) {
    && |batch| <= (if limit < 0 then 0 else limit)
    && (forall i :: 0 <= i < |batch| ==>
          && batch[i].id in events && events[batch[i].id] == batch[i]
          && batch[i].nextAttemptAt.Some? && WaitsFor(batch[i], batch[i].nextAttemptAt.value)
          && batch[i].nextAttemptAt.value <= now)
    && (forall i, j :: 0 <= i < j < |batch| ==>
          && batch[i].nextAttemptAt.Some? && batch[j].nextAttemptAt.Some?
          && batch[i].nextAttemptAt.value <= batch[j].nextAttemptAt.value && batch[i] != batch[j])
    && (forall id, at :: id in events && WaitsFor(events[id], at) && at <= now && events[id] !in batch ==>
          && |batch| == (if limit < 0 then 0 else limit)
          && forall i :: 0 <= i < |batch| ==> batch[i].nextAttemptAt.Some? && batch[i].nextAttemptAt.value <= at)
  }

  lemma BatchIsEarliestDue(events: Events, now: Time, limit: int, batch: seq<EventRecord>)
    requires IsDueBatch(events, now, limit, batch)
    ensures IsEarliestDue(events, now, limit, batch)
  {
    forall i | 0 <= i < |batch|
      ensures batch[i].id in events && events[batch[i].id] == batch[i] && IsDue(batch[i], now)
    {
      assert batch[i] in batch;
    }
    forall i, j | 0 <= i < j < |batch|
      ensures NextAttempt()(batch[i]) <= NextAttempt()(batch[j]) && batch[i] != batch[j]
    {
      DistinctIndices(batch, i, j);
    }
    forall id, at | id in events && WaitsFor(events[id], at) && at <= now && events[id] !in batch
      ensures |batch| == Limit(limit)
      ensures forall i :: 0 <= i < |batch| ==> NextAttempt()(batch[i]) <= at
    {
      assert IsDue(events[id], now);
      forall i | 0 <= i < |batch| ensures NextAttempt()(batch[i]) <= at {
        assert batch[i] in batch;
      }
    }
  }

  // === Marking

  function AsDelivered(r: EventRecord, at: Time): EventRecord {
    r.(status := Delivered, deliveredAt := Some(at), nextAttemptAt := None, updatedAt := at)
  }

  function AsFailed(r: EventRecord, next: Option<Time>, now: Time): EventRecord {
    r.(attempts := r.attempts + 1, nextAttemptAt := next, status := if next.Some? then Pending else Failed,
       updatedAt := now)
  }

  function MarkDelivered(events: Events, id: Uuid, at: Time): (Events, Result<(), MarkError>) {
    if id in events then (events[id := AsDelivered(events[id], at)], Ok(())) else (events, Err(NotFound))
  }

  function MarkFailed(events: Events, id: Uuid, next: Option<Time>, now: Time): (Events, Result<(), MarkError>) {
    if id in events then (events[id := AsFailed(events[id], next, now)], Ok(())) else (events, Err(NotFound))
  }

  // === Listing for one payment

  function OfPayment(paymentId: Uuid): EventRecord -> bool {
    (r: EventRecord) => r.paymentId == paymentId
  }

  function ByCreation(): EventRecord -> int {
    (r: EventRecord) => r.createdAt
  }

  // === The repository

  class InMemoryWebhookEventRepository {
    var events: Events
    /** The iteration order of the hash table: arbitrary, fixed between insertions. */
    var order: seq<Uuid>

    ghost predicate Valid()
      reads this
    {
      KeyedBy(events, EventId()) && Enumerates(order, events.Keys)
    }

    constructor ()
      ensures Valid() && events == map[]
    {
      events, order := map[], [];
    }

    method Enqueue(id: Uuid, payload: PaymentCore.PaymentEvent, now: Time) returns (r: EventRecord)
      requires Valid()
      modifies this
      ensures Valid()
      ensures r == NewRecord(id, payload, now)
      ensures r.id == id && r.payload == payload && r.paymentId == payload.payment.id
      ensures r.eventType == if payload.PaymentCreated? then "payment.created"
                             else "payment." + PaymentCore.StatusText(PaymentCore.NamedStatus(payload))
      ensures r.status.Pending? && r.attempts == 0 && r.deliveredAt.None?
      ensures r.nextAttemptAt == Some(now) && r.createdAt == r.updatedAt == now
      ensures events == old(events)[id := r]
    {
      r := EventRecord(id, payload.payment.id, PaymentCore.EventType(payload), payload, Pending, 0, Some(now), None,
                       now, now);
      PaymentCore.TypeIsStatusText(payload);
      events := events[id := r];
      order := AnyOrder(events.Keys);
    }

    method FetchDue(now: Time, limit: int) returns (due: seq<EventRecord>)
      requires Valid()
      ensures IsDueBatch(events, now, limit, due)
      ensures IsEarliestDue(events, now, limit, due)
    {
      due := Collect(events, order, Due(now));
      due := SortBy(due, NextAttempt());
      SelectedListsOnce(events, order, EventId(), Due(now), NextAttempt());
      PrefixIsDueBatch(events, now, limit, due);
      if |due| > Limit(limit) {
        due := due[..Limit(limit)];
      }
      BatchIsEarliestDue(events, now, limit, due);
    }

    method MarkAsDelivered(id: Uuid, at: Time) returns (r: Result<(), MarkError>)
      requires Valid()
      modifies this`events
      ensures Valid()
      ensures (events, r) == MarkDelivered(old(events), id, at)
      ensures r.Ok? <==> id in old(events)
      ensures events == if id !in old(events) then old(events)
        else old(events)[id := old(events)[id].(status := Delivered, deliveredAt := Some(at), nextAttemptAt := None,
                                                updatedAt := at)]
    {
      if id !in events {
        return Err(NotFound);
      }
      var event := events[id];
      event := event.(status := Delivered);
      event := event.(deliveredAt := Some(at));
      event := event.(nextAttemptAt := None);
      event := event.(updatedAt := at);
      events := events[id := event];
      return Ok(());
    }

    method MarkAsFailed(id: Uuid, next: Option<Time>, now: Time) returns (r: Result<(), MarkError>)
      requires Valid()
      modifies this`events
      ensures Valid()
      ensures (events, r) == MarkFailed(old(events), id, next, now)
      ensures r.Ok? <==> id in old(events)
      ensures events == if id !in old(events) then old(events)
        else old(events)[id := old(events)[id].(attempts := old(events)[id].attempts + 1, nextAttemptAt := next,
                                                status := if next.Some? then Pending else Failed, updatedAt := now)]
    {
      if id !in events {
        return Err(NotFound);
      }
      var event := events[id];
      event := event.(attempts := event.attempts + 1);
      event := event.(nextAttemptAt := next);
      event := event.(status := if next.Some? then Pending else Failed);
      event := event.(updatedAt := now);
      events := events[id := event];
      return Ok(());
    }

    method ListForPayment(paymentId: Uuid) returns (matching: seq<EventRecord>)
      requires Valid()
      ensures ListsOnce(matching, events, EventId(), OfPayment(paymentId)) && SortedBy(matching, ByCreation())
      ensures forall r :: r in matching <==> r.id in events && events[r.id] == r && r.paymentId == paymentId
      ensures forall i, j :: 0 <= i < j < |matching| ==>
        matching[i].createdAt <= matching[j].createdAt && matching[i] != matching[j]
    {
      matching := Collect(events, order, OfPayment(paymentId));
      matching := SortBy(matching, ByCreation());
      SelectedListsOnce(events, order, EventId(), OfPayment(paymentId), ByCreation());
      forall i, j | 0 <= i < j < |matching|
        ensures ByCreation()(matching[i]) <= ByCreation()(matching[j]) && matching[i] != matching[j]
      {
        DistinctIndices(matching, i, j);
      }
    }
  }
}
