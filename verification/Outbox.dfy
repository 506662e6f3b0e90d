/**
 * The outbox as a state machine: one delivery loop that fetches a batch and
 * then posts and marks its events one by one, with enqueues, answers of every
 * kind, lost marks and the passing of time interleaved in between.
 */
module Outbox {
  import opened Wrappers
  import opened Collections
  import opened HashTable
  import opened Backoff
  import opened WebhookRepository
  import PaymentCore

  const FETCH_BATCH_SIZE: nat := 50

  /** What history records of deliveries. */
  datatype Happening =
    | Posted(id: Uuid)
    | FailureRecorded(id: Uuid)
    | DeliveryRecorded(id: Uuid)
    | MarkLost(id: Uuid)

  /** Where the delivery loop stands. The records it holds are snapshots. */
  datatype Stage =
    | Resting
    | Delivering(todo: seq<EventRecord>)
    | Answered(record: EventRecord, accepted: bool, todo: seq<EventRecord>)

  datatype Queue = Queue(events: Events, now: Time, stage: Stage, history: seq<Happening>)

  datatype Move =
    | Tick(to: Time)
    | Enqueue(id: Uuid, payload: PaymentCore.PaymentEvent)
    | Fetch(batch: seq<EventRecord>)
    | Post(accepted: bool)
    | Mark(lost: bool)
    | Rest

  /** When the next attempt is due after the failure now being recorded. */
  function Reschedule(r: EventRecord, now: Time): Option<Time> {
    match NextBackoff(r.attempts + 1)
    case None => None
    case Some(delay) => Some(now + delay)
  }

  function Marked(q: Queue, lost: bool): Queue
    requires q.stage.Answered?
  {
    var r := q.stage.record;
    var (events, answer) :=
      if q.stage.accepted then MarkDelivered(q.events, r.id, q.now)
      else MarkFailed(q.events, r.id, Reschedule(r, q.now), q.now);
    var done := q.(stage := Delivering(q.stage.todo));
    if lost || answer.Err? then done.(history := q.history + [MarkLost(r.id)])
    else
      done.(events := events,
            history := q.history + [if q.stage.accepted then DeliveryRecorded(r.id) else FailureRecorded(r.id)])
  }

  ghost predicate Enabled(q: Queue, move: Move) {
    match move
    case Tick(to) => to >= q.now
    case Enqueue(id, _) => id !in q.events
    case Fetch(batch) => q.stage.Resting? && IsDueBatch(q.events, q.now, FETCH_BATCH_SIZE, batch)
    case Post(_) => q.stage.Delivering? && q.stage.todo != []
    case Mark(_) => q.stage.Answered?
    case Rest => q.stage.Delivering? && q.stage.todo == []
  }

  ghost function Step(q: Queue, move: Move): Queue
    requires Enabled(q, move)
  {
    match move
    case Tick(to) => q.(now := to)
    case Enqueue(id, payload) => q.(events := q.events[id := NewRecord(id, payload, q.now)])
    case Fetch(batch) => q.(stage := Delivering(batch))
    case Post(accepted) =>
      var r := q.stage.todo[0];
      q.(stage := Answered(r, accepted, q.stage.todo[1..]), history := q.history + [Posted(r.id)])
    case Mark(lost) => Marked(q, lost)
    case Rest => q.(stage := Resting)
  }

  function Initial(now: Time): Queue {
    Queue(map[], now, Resting, [])
  }

  ghost predicate IsRun(q: Queue, moves: seq<Move>)
    decreases |moves|
  {
    moves == [] || (Enabled(q, moves[0]) && IsRun(Step(q, moves[0]), moves[1..]))
  }

  ghost function After(q: Queue, moves: seq<Move>): Queue
    requires IsRun(q, moves)
    decreases |moves|
  {
    if moves == [] then q else After(Step(q, moves[0]), moves[1..])
  }

  ghost predicate Reachable(q: Queue) {
    exists now, moves :: IsRun(Initial(now), moves) && After(Initial(now), moves) == q
  }

  // === Runs, put together

  lemma {:induction false} RunsCompose(q: Queue, a: seq<Move>, b: seq<Move>)
    requires IsRun(q, a) && IsRun(After(q, a), b)
    ensures IsRun(q, a + b) && After(q, a + b) == After(After(q, a), b)
    decreases |a|
  {
    if a == [] {
      assert a + b == b;
    } else {
      assert (a + b)[1..] == a[1..] + b;
      RunsCompose(Step(q, a[0]), a[1..], b);
    }
  }

  lemma RunExtends(q: Queue, moves: seq<Move>, move: Move)
    requires IsRun(q, moves) && Enabled(After(q, moves), move)
    ensures IsRun(q, moves + [move]) && After(q, moves + [move]) == Step(After(q, moves), move)
  {
    var mid := After(q, moves);
    assert IsRun(Step(mid, move), []);
    assert [move][1..] == [];
    assert IsRun(mid, [move]) && After(mid, [move]) == Step(mid, move);
    RunsCompose(q, moves, [move]);
  }

  lemma InitialIsReachable(now: Time)
    ensures Reachable(Initial(now))
  {
    assert IsRun(Initial(now), []) && After(Initial(now), []) == Initial(now);
  }

  lemma RunsReach(q: Queue, move: Move)
    requires Reachable(q) && Enabled(q, move)
    ensures Reachable(Step(q, move))
  {
    var now, moves :| IsRun(Initial(now), moves) && After(Initial(now), moves) == q;
    RunExtends(Initial(now), moves, move);
  }

  // === The invariant

  function Failures(id: Uuid): Happening -> bool {
    (h: Happening) => h == FailureRecorded(id)
  }

  function Deliveries(id: Uuid): Happening -> bool {
    (h: Happening) => h == DeliveryRecorded(id)
  }

  /** What a record's columns say about each other and about the time. */
  predicate RecordOk(r: EventRecord, now: Time) {
    && (r.status.Pending? <==> r.nextAttemptAt.Some?)
    && (r.status.Delivered? <==> r.deliveredAt.Some?)
    && (r.status.Failed? <==> r.attempts == MAX_ATTEMPTS)
    && r.attempts <= MAX_ATTEMPTS
    && r.createdAt <= r.updatedAt <= now
    && (r.nextAttemptAt.Some? ==>
          && NextBackoff(r.attempts).Some?
          && r.nextAttemptAt.value == r.updatedAt + NextBackoff(r.attempts).value >= r.createdAt + Waited(r.attempts))
    && (r.deliveredAt.Some? ==> r.deliveredAt.value == r.updatedAt)
    && r.paymentId == r.payload.payment.id && r.eventType == PaymentCore.EventType(r.payload)
    && (r.status.Failed? ==> r.updatedAt >= r.createdAt + Waited(MAX_ATTEMPTS - 1))
  }

  /** A record's attempts are its recorded failures, and it is delivered once at most. */
  predicate TallyOk(r: EventRecord, history: seq<Happening>) {
    && r.attempts == Count(history, Failures(r.id))
    && Count(history, Deliveries(r.id)) == if r.status.Delivered? then 1 else 0
  }

  ghost predicate RecordsOk(q: Queue) {
    && KeyedBy(q.events, EventId())
    && (forall id :: id in q.events ==> RecordOk(q.events[id], q.now) && TallyOk(q.events[id], q.history))
    && (forall h :: h in q.history ==> h.id in q.events)
  }

  /** A snapshot in the loop's hands still is what the repository stores, and still is due. */
  predicate Current(q: Queue, r: EventRecord) {
    r.id in q.events && q.events[r.id] == r && IsDue(r, q.now)
  }

  /** The snapshots the loop has yet to mark. */
  function InHand(q: Queue): seq<EventRecord> {
    match q.stage
    case Resting => []
    case Delivering(todo) => todo
    case Answered(r, _, todo) => [r] + todo
  }

  ghost predicate HandOk(q: Queue) {
    NoDuplicates(InHand(q)) && forall r :: r in InHand(q) ==> Current(q, r)
  }

  ghost predicate Inv(q: Queue) {
    RecordsOk(q) && HandOk(q)
  }

  // === Every step keeps it

  lemma TailOfHand(hand: seq<EventRecord>)
    requires hand != [] && NoDuplicates(hand)
    ensures NoDuplicates(hand[1..]) && hand[0] !in hand[1..]
    ensures forall r :: r in hand[1..] ==> r in hand
  {
    var rest := hand[1..];
    assert hand == [hand[0]] + rest;
    forall r ensures multiset(rest)[r] <= 1 {
      assert multiset(hand)[r] == multiset{hand[0]}[r] + multiset(rest)[r];
    }
    assert multiset(hand)[hand[0]] == 1 + multiset(rest)[hand[0]];
  }

  lemma HistoryGrows(history: seq<Happening>, h: Happening, id: Uuid)
    ensures Count(history + [h], Failures(id))
         == Count(history, Failures(id)) + if h == FailureRecorded(id) then 1 else 0
    ensures Count(history + [h], Deliveries(id))
         == Count(history, Deliveries(id)) + if h == DeliveryRecorded(id) then 1 else 0
  {
    CountConcat(history, [h], Failures(id));
    CountConcat(history, [h], Deliveries(id));
    FilterOne(h, Failures(id));
    FilterOne(h, Deliveries(id));
  }

  lemma MarkedRecordOk(r: EventRecord, now: Time)
    requires RecordOk(r, now) && IsDue(r, now)
    ensures RecordOk(AsDelivered(r, now), now)
    ensures RecordOk(AsFailed(r, Reschedule(r, now), now), now)
  {
    ScheduleGivesOut(r.attempts + 1);
  }

  /** What one mark leaves of a record: itself, or its delivered or failed version. */
  lemma MarkOfOne(q: Queue, lost: bool, id: Uuid)
    requires q.stage.Answered? && Current(q, q.stage.record) && id in q.events
    ensures
      var q' := Marked(q, lost);
      var r := q.stage.record;
      && q'.events.Keys == q.events.Keys && q'.now == q.now
      && q'.events[id] == (if lost || id != r.id then q.events[id]
                           else if q.stage.accepted then AsDelivered(r, q.now)
                           else AsFailed(r, Reschedule(r, q.now), q.now))
      && q'.history == q.history + [if lost then MarkLost(r.id)
                                    else if q.stage.accepted then DeliveryRecorded(r.id)
                                    else FailureRecorded(r.id)]
  {
  }

  lemma MarkKeepsRecord(q: Queue, lost: bool, id: Uuid)
    requires q.stage.Answered? && Current(q, q.stage.record) && id in q.events && q.events[id].id == id
    requires RecordOk(q.events[id], q.now) && TallyOk(q.events[id], q.history)
    ensures
      var q' := Marked(q, lost);
      id in q'.events && RecordOk(q'.events[id], q'.now) && TallyOk(q'.events[id], q'.history) && q'.events[id].id == id
  {
    var q' := Marked(q, lost);
    MarkOfOne(q, lost, id);
    HistoryGrows(q.history, q'.history[|q.history|], id);
    if id == q.stage.record.id {
      MarkedRecordOk(q.stage.record, q.now);
    }
  }

  lemma MarkKeepsRecords(q: Queue, lost: bool)
    requires Inv(q) && q.stage.Answered?
    ensures RecordsOk(Marked(q, lost))
  {
    assert q.stage.record in InHand(q);
    MarkOfOne(q, lost, q.stage.record.id);
    forall id | id in q.events
      ensures
        var q' := Marked(q, lost);
        && id in q'.events && q'.events[id].id == id
        && RecordOk(q'.events[id], q'.now) && TallyOk(q'.events[id], q'.history)
    {
      assert EventId()(q.events[id]) == id;
      MarkKeepsRecord(q, lost, id);
    }
  }

  lemma MarkKeepsHand(q: Queue, lost: bool)
    requires KeyedBy(q.events, EventId()) && HandOk(q) && q.stage.Answered?
    ensures HandOk(Marked(q, lost))
  {
    var q' := Marked(q, lost);
    var r, todo := q.stage.record, q.stage.todo;
    TailOfHand([r] + todo);
    assert ([r] + todo)[1..] == todo;
    forall other | other in todo ensures Current(q', other) {
      assert other in InHand(q) && r in InHand(q);
      assert other.id != r.id;
    }
  }

  lemma PostKeepsRecords(q: Queue, q': Queue, r: EventRecord)
    requires RecordsOk(q) && r.id in q.events
    requires q'.events == q.events && q'.now == q.now && q'.history == q.history + [Posted(r.id)]
    ensures RecordsOk(q')
  {
    forall id | id in q.events ensures TallyOk(q.events[id], q'.history) {
      HistoryGrows(q.history, Posted(r.id), id);
      assert EventId()(q.events[id]) == id;
    }
  }

  lemma {:induction false} NothingHappened(history: seq<Happening>, id: Uuid)
    requires forall h :: h in history ==> h.id != id
    ensures Count(history, Failures(id)) == 0 && Count(history, Deliveries(id)) == 0
  {
    if history != [] {
      assert history[0] in history;
      NothingHappened(history[1..], id);
    }
  }

  lemma NewRecordOk(id: Uuid, payload: PaymentCore.PaymentEvent, history: seq<Happening>, now: Time)
    requires forall h :: h in history ==> h.id != id
    ensures RecordOk(NewRecord(id, payload, now), now) && TallyOk(NewRecord(id, payload, now), history)
  {
    NothingHappened(history, id);
  }

  lemma EnqueueKeepsInv(q: Queue, id: Uuid, payload: PaymentCore.PaymentEvent)
    requires Inv(q) && id !in q.events
    ensures Inv(q.(events := q.events[id := NewRecord(id, payload, q.now)]))
  {
    var q' := q.(events := q.events[id := NewRecord(id, payload, q.now)]);
    NewRecordOk(id, payload, q.history, q.now);
    forall r | r in InHand(q') ensures Current(q', r) {
      assert Current(q, r);
    }
    forall other | other in q'.events
      ensures RecordOk(q'.events[other], q'.now) && TallyOk(q'.events[other], q'.history)
    {
      assert other != id ==> RecordOk(q.events[other], q.now) && TallyOk(q.events[other], q.history);
    }
  }

  lemma SameHand(q: Queue, q': Queue)
    requires HandOk(q) && InHand(q') == InHand(q) && q'.events == q.events && q'.now == q.now
    ensures HandOk(q')
  {
    forall r | r in InHand(q') ensures Current(q', r) {
      assert Current(q, r);
    }
  }

  lemma PostKeepsHand(q: Queue, accepted: bool)
    requires HandOk(q) && Enabled(q, Post(accepted))
    ensures HandOk(Step(q, Post(accepted)))
  {
    var todo := q.stage.todo;
    assert [todo[0]] + todo[1..] == todo;
    SameHand(q, Step(q, Post(accepted)));
  }

  lemma PostKeepsInv(q: Queue, accepted: bool)
    requires Inv(q) && Enabled(q, Post(accepted))
    ensures Inv(Step(q, Post(accepted)))
  {
    PostKeepsHand(q, accepted);
    assert q.stage.todo[0] in InHand(q);
    PostKeepsRecords(q, Step(q, Post(accepted)), q.stage.todo[0]);
  }

  lemma StepKeepsInv(q: Queue, move: Move)
    requires Inv(q) && Enabled(q, move)
    ensures Inv(Step(q, move))
  {
    match move
    case Enqueue(id, payload) => EnqueueKeepsInv(q, id, payload);
    case Post(accepted) => PostKeepsInv(q, accepted);
    case Mark(lost) =>
      MarkKeepsRecords(q, lost);
      MarkKeepsHand(q, lost);
    case _ =>
  }

  lemma {:induction false} RunKeepsInv(q: Queue, moves: seq<Move>)
    requires Inv(q) && IsRun(q, moves)
    ensures Inv(After(q, moves))
    decreases |moves|
  {
    if moves != [] {
      StepKeepsInv(q, moves[0]);
      RunKeepsInv(Step(q, moves[0]), moves[1..]);
    }
  }

  lemma ReachableInv(q: Queue)
    requires Reachable(q)
    ensures Inv(q)
  {
    var now, moves :| IsRun(Initial(now), moves) && After(Initial(now), moves) == q;
    RunKeepsInv(Initial(now), moves);
  }
}
