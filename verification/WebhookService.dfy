/** The webhook service over the in-memory repository: enqueueing, and one delivery pass. */
module WebhookService {
  import opened Wrappers
  import opened Collections
  import opened Backoff
  import opened WebhookRepository
  import opened Outbox
  import PaymentCore

  // === One pass, turn by turn

  /** The events after one record was posted and its answer marked. */
  function Turn(events: Events, r: EventRecord, accepted: bool, at: Time): Events {
    if accepted then MarkDelivered(events, r.id, at).0 else MarkFailed(events, r.id, Reschedule(r, at), at).0
  }

  /**
   * The events after the first `n` turns of a pass. `clock(0)` is read for the
   * fetch and `clock(i + 1)` when the i-th record is marked; `accepts(i)` is
   * the endpoint's answer to it.
   */
  function AfterTurns(events: Events, batch: seq<EventRecord>, clock: nat -> Time, accepts: nat -> bool, n: nat): Events
    requires n <= |batch|
  {
    if n == 0 then events
    else Turn(AfterTurns(events, batch, clock, accepts, n - 1), batch[n - 1], accepts(n - 1), clock(n))
  }

  lemma OneMoreTurn(
    events: Events, before: Events, batch: seq<EventRecord>, clock: nat -> Time, accepts: nat -> bool, n: nat)
    requires n < |batch| && before == AfterTurns(events, batch, clock, accepts, n)
    ensures AfterTurns(events, batch, clock, accepts, n + 1) == Turn(before, batch[n], accepts(n), clock(n + 1))
  {
  }

  /** What one delivery leaves of a record. */
  function Outcome(r: EventRecord, accepted: bool, at: Time): EventRecord {
    if accepted then AsDelivered(r, at) else AsFailed(r, Reschedule(r, at), at)
  }

  /**
   * A delivery in numbers. Accepted: delivered now, nothing more to attempt.
   * Not accepted: one more attempt on record, the next one a minute from now,
   * then five and fifteen minutes, one hour, six hours; after the sixth there
   * is none and the event has failed.
   */
  ghost predicate IsDelivery(before: Events, after: Events, r: EventRecord, accepted: bool, now: Time) {
    if r.id !in before then after == before
    else
      var stored := before[r.id];
      after == before[r.id :=
        if accepted then
          stored.(status := Delivered, deliveredAt := Some(now), nextAttemptAt := None, updatedAt := now)
        else if r.attempts < 5 then
          stored.(status := Pending, attempts := stored.attempts + 1, updatedAt := now,
                  nextAttemptAt := Some(now + [60, 300, 900, 3600, 21600][r.attempts] * 1_000_000))
        else
          stored.(status := Failed, attempts := stored.attempts + 1, updatedAt := now, nextAttemptAt := None)]
  }

  lemma TurnIsDelivery(events: Events, r: EventRecord, accepted: bool, at: Time)
    ensures IsDelivery(events, Turn(events, r, accepted, at), r, accepted, at)
  {
    DelaysAre(r.attempts + 1);
  }

  lemma TurnKeepsKeys(events: Events, r: EventRecord, accepted: bool, at: Time)
    ensures Turn(events, r, accepted, at).Keys == events.Keys
  {
  }

  lemma TurnOnCurrent(events: Events, r: EventRecord, accepted: bool, at: Time)
    requires r.id in events && events[r.id] == r
    ensures Turn(events, r, accepted, at) == events[r.id := Outcome(r, accepted, at)]
  {
  }

  /** `id` is not among the first `n` of the batch. */
  predicate Untouched(batch: seq<EventRecord>, n: nat, id: Uuid)
    requires n <= |batch|
  {
    forall i :: 0 <= i < n ==> batch[i].id != id
  }

  ghost predicate AreStored(events: Events, batch: seq<EventRecord>) {
    NoDuplicates(batch) && forall r :: r in batch ==> r.id in events && events[r.id] == r
  }

  lemma EarlierIdsDiffer(events: Events, batch: seq<EventRecord>, n: nat)
    requires n < |batch| && AreStored(events, batch)
    ensures Untouched(batch, n, batch[n].id)
  {
    forall i | 0 <= i < n ensures batch[i].id != batch[n].id {
      DistinctIndices(batch, i, n);
      assert batch[i] in batch && batch[n] in batch;
    }
  }

  lemma {:induction false} TurnsLeaveOthers(
    events: Events, batch: seq<EventRecord>, clock: nat -> Time, accepts: nat -> bool, n: nat, id: Uuid)
    requires n <= |batch| && id in events && Untouched(batch, n, id)
    ensures
      var after := AfterTurns(events, batch, clock, accepts, n);
      id in after && after[id] == events[id]
  {
    if n > 0 {
      TurnsLeaveOthers(events, batch, clock, accepts, n - 1, id);
      assert batch[n - 1].id != id;
    }
  }

  lemma {:induction false} TurnSettlesItsRecord(
    events: Events, batch: seq<EventRecord>, clock: nat -> Time, accepts: nat -> bool, n: nat, i: nat)
    requires i < n <= |batch| && AreStored(events, batch)
    ensures
      var after := AfterTurns(events, batch, clock, accepts, n);
      batch[i].id in after && after[batch[i].id] == Outcome(batch[i], accepts(i), clock(i + 1))
  {
    EarlierIdsDiffer(events, batch, n - 1);
    assert batch[n - 1] in batch;
    var before := AfterTurns(events, batch, clock, accepts, n - 1);
    OneMoreTurn(events, before, batch, clock, accepts, n - 1);
    TurnsLeaveOthers(events, batch, clock, accepts, n - 1, batch[n - 1].id);
    TurnOnCurrent(before, batch[n - 1], accepts(n - 1), clock(n));
    if i < n - 1 {
      TurnSettlesItsRecord(events, batch, clock, accepts, n - 1, i);
    }
  }

  lemma {:induction false} TurnsKeepKeys(
    events: Events, batch: seq<EventRecord>, clock: nat -> Time, accepts: nat -> bool, n: nat)
    requires n <= |batch|
    ensures AfterTurns(events, batch, clock, accepts, n).Keys == events.Keys
  {
    if n > 0 {
      TurnsKeepKeys(events, batch, clock, accepts, n - 1);
      TurnKeepsKeys(AfterTurns(events, batch, clock, accepts, n - 1), batch[n - 1], accepts(n - 1), clock(n));
    }
  }

  /** A pass settles each record of its batch by its own answer, and touches nothing else. */
  lemma PassSettlesTheBatch(events: Events, batch: seq<EventRecord>, clock: nat -> Time, accepts: nat -> bool)
    requires AreStored(events, batch)
    ensures
      var after := AfterTurns(events, batch, clock, accepts, |batch|);
      && after.Keys == events.Keys
      && (forall i :: 0 <= i < |batch| ==>
            batch[i].id in after && after[batch[i].id] == Outcome(batch[i], accepts(i), clock(i + 1)))
      && (forall id :: id in events && Untouched(batch, |batch|, id) ==> id in after && after[id] == events[id])
  {
    TurnsKeepKeys(events, batch, clock, accepts, |batch|);
    var after := AfterTurns(events, batch, clock, accepts, |batch|);
    forall i | 0 <= i < |batch|
      ensures batch[i].id in after && after[batch[i].id] == Outcome(batch[i], accepts(i), clock(i + 1))
    {
      TurnSettlesItsRecord(events, batch, clock, accepts, |batch|, i);
    }
    forall id | id in events && Untouched(batch, |batch|, id) ensures id in after && after[id] == events[id] {
      TurnsLeaveOthers(events, batch, clock, accepts, |batch|, id);
    }
  }

  /** The machine's moves for the first `n` turns. */
  function TurnMoves(clock: nat -> Time, accepts: nat -> bool, n: nat): seq<Move> {
    if n == 0 then [] else TurnMoves(clock, accepts, n - 1) + [Tick(clock(n)), Post(accepts(n - 1)), Mark(false)]
  }

  /** One turn of the delivery loop is three steps of the machine. */
  lemma DeliverStep(start: Queue, moves: seq<Move>, batch: seq<EventRecord>, i: nat, at: Time, accepted: bool)
    requires IsRun(start, moves) && i < |batch|
    requires After(start, moves).stage == Delivering(batch[i..]) && After(start, moves).now <= at
    requires batch[i].id in After(start, moves).events
    ensures
      var longer := moves + [Tick(at), Post(accepted), Mark(false)];
      && IsRun(start, longer)
      && After(start, longer).stage == Delivering(batch[i + 1..])
      && After(start, longer).now == at
      && After(start, longer).events == Turn(After(start, moves).events, batch[i], accepted, at)
  {
    assert batch[i..][1..] == batch[i + 1..];
    RunExtends(start, moves, Tick(at));
    var m1 := moves + [Tick(at)];
    RunExtends(start, m1, Post(accepted));
    var m2 := m1 + [Post(accepted)];
    RunExtends(start, m2, Mark(false));
    assert m2 + [Mark(false)] == moves + [Tick(at), Post(accepted), Mark(false)];
  }

  predicate MovesOn(clock: nat -> Time, i: nat) {
    clock(i) <= clock(i + 1)
  }

  /** No reading of the clock is before the one it follows. */
  ghost predicate NeverBack(clock: nat -> Time) {
    forall i: nat :: MovesOn(clock, i)
  }

  lemma {:induction false} TurnsAreARun(
    q: Queue, batch: seq<EventRecord>, clock: nat -> Time, accepts: nat -> bool, n: nat)
    requires n <= |batch| && q.stage == Delivering(batch) && q.now == clock(0)
    requires NeverBack(clock)
    requires forall r :: r in batch ==> r.id in q.events
    ensures
      var moves := TurnMoves(clock, accepts, n);
      && IsRun(q, moves)
      && After(q, moves).stage == Delivering(batch[n..])
      && After(q, moves).now == clock(n)
      && After(q, moves).events == AfterTurns(q.events, batch, clock, accepts, n)
  {
    if n == 0 {
      assert batch[0..] == batch;
    } else {
      var moves := TurnMoves(clock, accepts, n - 1);
      TurnsAreARun(q, batch, clock, accepts, n - 1);
      TurnsKeepKeys(q.events, batch, clock, accepts, n - 1);
      assert MovesOn(clock, n - 1) && batch[n - 1] in batch;
      DeliverStep(q, moves, batch, n - 1, clock(n), accepts(n - 1));
    }
  }

  /** Without interference, a pass of the service is a run of the outbox machine from one rest to the next. */
  lemma PassIsARun(
    q: Queue, batch: seq<EventRecord>, clock: nat -> Time, accepts: nat -> bool) returns (moves: seq<Move>)
    requires q.stage.Resting? && q.now == clock(0)
    requires IsDueBatch(q.events, q.now, FETCH_BATCH_SIZE, batch)
    requires NeverBack(clock)
    ensures IsRun(q, moves)
    ensures After(q, moves).stage.Resting?
    ensures After(q, moves).events == AfterTurns(q.events, batch, clock, accepts, |batch|)
  {
    var fetched := Step(q, Fetch(batch));
    var turns := TurnMoves(clock, accepts, |batch|);
    TurnsAreARun(fetched, batch, clock, accepts, |batch|);
    assert batch[|batch|..] == [];
    RunExtends(fetched, turns, Rest);
    moves := [Fetch(batch)] + (turns + [Rest]);
    assert moves[1..] == turns + [Rest];
  }

  // === The service

  class WebhookService {
    const repository: InMemoryWebhookEventRepository

    constructor (repository: InMemoryWebhookEventRepository)
      ensures this.repository == repository
    {
      this.repository := repository;
    }

    method EnqueueEvent(id: Uuid, event: PaymentCore.PaymentEvent, now: Time)
      requires repository.Valid()
      modifies repository
      ensures repository.Valid()
      ensures repository.events == old(repository.events)[id := NewRecord(id, event, now)]
      ensures repository.events[id].payload == event && repository.events[id].paymentId == event.payment.id
      ensures repository.events[id].eventType
           == if event.PaymentCreated? then "payment.created"
              else "payment." + PaymentCore.StatusText(PaymentCore.NamedStatus(event))
      ensures WaitsFor(repository.events[id], now) && repository.events[id].attempts == 0
    {
      var record := repository.Enqueue(id, event, now);
    }

    method DeliverDue(clock: nat -> Time, accepts: nat -> bool) returns (ghost due: seq<EventRecord>)
      requires repository.Valid()
      modifies repository`events
      ensures repository.Valid()
      ensures IsDueBatch(old(repository.events), clock(0), FETCH_BATCH_SIZE, due)
      ensures IsEarliestDue(old(repository.events), clock(0), 50, due)
      ensures repository.events == AfterTurns(old(repository.events), due, clock, accepts, |due|)
    {
      var batch := repository.FetchDue(clock(0), FETCH_BATCH_SIZE);
      due := batch;
      BatchIsEarliestDue(repository.events, clock(0), FETCH_BATCH_SIZE, due);
      DeliverAll(batch, clock, accepts);
    }

    method DeliverAll(batch: seq<EventRecord>, clock: nat -> Time, accepts: nat -> bool)
      requires repository.Valid()
      modifies repository`events
      ensures repository.Valid()
      ensures repository.events == AfterTurns(old(repository.events), batch, clock, accepts, |batch|)
    {
      var i := 0;
      while i < |batch|
        invariant 0 <= i <= |batch|
        invariant repository.Valid()
        invariant repository.events == AfterTurns(old(repository.events), batch, clock, accepts, i)
      {
        ghost var before := repository.events;
        DeliverOne(batch[i], accepts(i), clock(i + 1));
        OneMoreTurn(old(repository.events), before, batch, clock, accepts, i);
        i := i + 1;
      }
    }

    /** One POST, and the mark its answer calls for. */
    method DeliverOne(record: EventRecord, delivered: bool, now: Time)
      requires repository.Valid()
      modifies repository`events
      ensures repository.Valid()
      ensures repository.events == Turn(old(repository.events), record, delivered, now)
      ensures IsDelivery(old(repository.events), repository.events, record, delivered, now)
    {
      TurnIsDelivery(repository.events, record, delivered, now);
      if delivered {
        var marked := repository.MarkAsDelivered(record.id, now);
        return;
      }
      var attemptsMade := record.attempts + 1;
      var delay := NextBackoff(attemptsMade);
      var nextAttemptAt := if delay.Some? then Some(now + delay.value) else None;
      var marked := repository.MarkAsFailed(record.id, nextAttemptAt, now);
    }
  }
}
