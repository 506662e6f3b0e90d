/** What the outbox promises: consistent records, spaced retries, few POSTs, and no starvation. */
module OutboxProperties {
  import opened Collections
  import opened Backoff
  import opened WebhookRepository
  import opened Outbox
  import PaymentCore

  // === Records

  /**
   * In every reachable state: pending exactly while a next attempt is set,
   * delivered exactly when a delivery time is, which then is the last change;
   * failed exactly at six attempts; attempts are the failures recorded in
   * history; and the record is filed under its event's payment, with a type
   * that spells out the status the payment in it has.
   */
  lemma RecordsAreConsistent(q: Queue, id: Uuid)
    requires Reachable(q) && id in q.events
    ensures
      var r := q.events[id];
      && (r.status.Pending? <==> r.nextAttemptAt.Some?)
      && (r.status.Delivered? <==> r.deliveredAt.Some?)
      && (r.status.Failed? <==> r.attempts == 6)
      && r.attempts == Count(q.history, Failures(id)) <= 6
      && (r.status.Delivered? <==> Count(q.history, Deliveries(id)) == 1)
      && Count(q.history, Deliveries(id)) <= 1
      && (r.deliveredAt.Some? ==> r.deliveredAt.value == r.updatedAt)
      && r.createdAt <= r.updatedAt <= q.now
      && r.paymentId == r.payload.payment.id
      && r.eventType == (if r.payload.PaymentCreated? then "payment.created"
                         else "payment." + PaymentCore.StatusText(PaymentCore.NamedStatus(r.payload)))
  {
    ReachableInv(q);
    PaymentCore.TypeIsStatusText(q.events[id].payload);
    assert EventId()(q.events[id]) == id;
    assert RecordOk(q.events[id], q.now) && TallyOk(q.events[id], q.history);
  }

  /** Every snapshot still waiting in a batch is what the repository stores when its turn comes. */
  lemma SnapshotsStayCurrent(q: Queue, r: EventRecord)
    requires Reachable(q) && r in InHand(q)
    ensures r.id in q.events && q.events[r.id] == r && IsDue(r, q.now)
  {
    ReachableInv(q);
    assert Current(q, r);
  }

  /** Later states: nothing disappears, and what is delivered or failed stays exactly as it is. */
  ghost predicate Absorbed(a: Queue, b: Queue) {
    forall id :: id in a.events ==> id in b.events && (!a.events[id].status.Pending? ==> b.events[id] == a.events[id])
  }

  lemma StepAbsorbs(q: Queue, move: Move)
    requires Inv(q) && Enabled(q, move)
    ensures Absorbed(q, Step(q, move))
  {
    if move.Mark? {
      assert q.stage.record in InHand(q);
      assert Current(q, q.stage.record);
    }
  }

  lemma {:induction false} TerminalStatesAbsorb(q: Queue, moves: seq<Move>)
    requires Inv(q) && IsRun(q, moves)
    ensures Absorbed(q, After(q, moves))
    decreases |moves|
  {
    if moves != [] {
      StepAbsorbs(q, moves[0]);
      StepKeepsInv(q, moves[0]);
      TerminalStatesAbsorb(Step(q, moves[0]), moves[1..]);
    }
  }

  // === Time

  /**
   * With n failures recorded, the next attempt is 60, 300, 900, 3600 or 21600
   * seconds after the last of them, and so at least 60, 360, 1260, 4860 or
   * 26460 seconds after creation; and an event is terminally failed no earlier
   * than 26460 seconds after it was created.
   */
  lemma RetriesAreSpaced(q: Queue, id: Uuid)
    requires Reachable(q) && id in q.events
    ensures
      var r := q.events[id];
      && (r.status.Pending? ==>
            && r.nextAttemptAt.Some? && r.attempts < 6
            && r.nextAttemptAt.value == r.updatedAt + [0, 60, 300, 900, 3600, 21600][r.attempts] * 1_000_000
            && r.nextAttemptAt.value >= r.createdAt + [0, 60, 360, 1260, 4860, 26460][r.attempts] * 1_000_000)
      && (r.status.Failed? ==> r.updatedAt - r.createdAt >= 26460 * 1_000_000)
  {
    ReachableInv(q);
    DelaysAre(q.events[id].attempts);
    DelaysAre(MAX_ATTEMPTS - 1);
    assert RecordOk(q.events[id], q.now);
  }

  // === Accounting for POSTs

  function Posts(id: Uuid): Happening -> bool {
    (h: Happening) => h == Posted(id)
  }

  function Losses(id: Uuid): Happening -> bool {
    (h: Happening) => h == MarkLost(id)
  }

  /** A POST was answered and its mark is not made yet. */
  predicate Unmarked(q: Queue, id: Uuid) {
    q.stage.Answered? && q.stage.record.id == id
  }

  ghost predicate PostsBalance(q: Queue, id: Uuid) {
    Count(q.history, Posts(id))
      == Count(q.history, Failures(id)) + Count(q.history, Deliveries(id)) + Count(q.history, Losses(id))
       + if Unmarked(q, id) then 1 else 0
  }

  lemma PostsGrow(history: seq<Happening>, h: Happening, id: Uuid)
    ensures Count(history + [h], Posts(id)) == Count(history, Posts(id)) + if h == Posted(id) then 1 else 0
    ensures Count(history + [h], Losses(id)) == Count(history, Losses(id)) + if h == MarkLost(id) then 1 else 0
  {
    CountConcat(history, [h], Posts(id));
    CountConcat(history, [h], Losses(id));
    FilterOne(h, Posts(id));
    FilterOne(h, Losses(id));
  }

  lemma StepBalancesPosts(q: Queue, move: Move, id: Uuid)
    requires PostsBalance(q, id) && Enabled(q, move)
    ensures PostsBalance(Step(q, move), id)
  {
    var q' := Step(q, move);
    if q'.history != q.history {
      var h := q'.history[|q.history|];
      assert q'.history == q.history + [h];
      HistoryGrows(q.history, h, id);
      PostsGrow(q.history, h, id);
    }
  }

  lemma {:induction false} RunBalancesPosts(q: Queue, moves: seq<Move>, id: Uuid)
    requires PostsBalance(q, id) && IsRun(q, moves)
    ensures PostsBalance(After(q, moves), id)
    decreases |moves|
  {
    if moves != [] {
      StepBalancesPosts(q, moves[0], id);
      RunBalancesPosts(Step(q, moves[0]), moves[1..], id);
    }
  }

  /** Every POST of an event is a recorded failure, the recorded delivery, a lost mark, or not marked yet. */
  lemma PostsAreAccountedFor(q: Queue, id: Uuid)
    requires Reachable(q)
    ensures PostsBalance(q, id)
  {
    var now, moves :| IsRun(Initial(now), moves) && After(Initial(now), moves) == q;
    RunBalancesPosts(Initial(now), moves, id);
  }

  /** Six POSTs per event, and one more for every mark that was lost. */
  lemma AtMostSixPosts(q: Queue, id: Uuid)
    requires Reachable(q)
    ensures Count(q.history, Posts(id)) <= 6 + Count(q.history, Losses(id))
  {
    ReachableInv(q);
    PostsAreAccountedFor(q, id);
    if id in q.events {
      assert EventId()(q.events[id]) == id;
      assert RecordOk(q.events[id], q.now) && TallyOk(q.events[id], q.history);
      if Unmarked(q, id) {
        assert q.stage.record in InHand(q);
        assert Current(q, q.stage.record);
      }
    } else {
      NothingHappened(q.history, id);
      if Unmarked(q, id) {
        assert q.stage.record in InHand(q);
        assert Current(q, q.stage.record);
      }
    }
  }

  // === Termination

  /** How many more outcomes an event can still have recorded. */
  function Budget(events: Events): Uuid -> int {
    (id: Uuid) => if id in events && events[id].status.Pending? then MAX_ATTEMPTS - events[id].attempts else 0
  }

  /** The measure over the whole queue. */
  ghost function Potential(q: Queue): int {
    SumOver(q.events.Keys, Budget(q.events))
  }

  function IsOutcome(): Happening -> bool {
    (h: Happening) => h.FailureRecorded? || h.DeliveryRecorded?
  }

  ghost function Outcomes(q: Queue): nat {
    Count(q.history, IsOutcome())
  }

  lemma MarkCountsOutcome(q: Queue, lost: bool)
    requires q.stage.Answered? && Current(q, q.stage.record)
    ensures Outcomes(Marked(q, lost)) == Outcomes(q) + if lost then 0 else 1
  {
    MarkOfOne(q, lost, q.stage.record.id);
    var h := Marked(q, lost).history[|q.history|];
    CountConcat(q.history, [h], IsOutcome());
    FilterOne(h, IsOutcome());
  }

  /** The measure falls with every outcome that is recorded. */
  lemma MarkLowersPotential(q: Queue, lost: bool)
    requires q.stage.Answered? && Current(q, q.stage.record) && RecordOk(q.stage.record, q.now)
    ensures if lost then Potential(Marked(q, lost)) == Potential(q) else Potential(Marked(q, lost)) < Potential(q)
  {
    var r, q' := q.stage.record, Marked(q, lost);
    MarkOfOne(q, lost, r.id);
    ScheduleGivesOut(r.attempts + 1);
    forall other | other in q.events && other != r.id ensures Budget(q'.events)(other) == Budget(q.events)(other) {
      MarkOfOne(q, lost, other);
    }
    SumChangesAtOne(q.events.Keys, Budget(q.events), Budget(q'.events), r.id);
  }

  lemma EnqueueRaisesPotential(q: Queue, id: Uuid, payload: PaymentCore.PaymentEvent)
    requires id !in q.events
    ensures Potential(Step(q, Enqueue(id, payload))) == Potential(q) + MAX_ATTEMPTS
  {
    var q' := Step(q, Enqueue(id, payload));
    SumTakeOut(q'.events.Keys, Budget(q'.events), id);
    assert q'.events.Keys - {id} == q.events.Keys;
    SumSame(q.events.Keys, Budget(q.events), Budget(q'.events));
  }

  /** From one state to a later one, recorded outcomes are paid for by the measure, and enqueues pay six in. */
  ghost predicate Spends(a: Queue, b: Queue) {
    Potential(b) + Outcomes(b) <= Potential(a) + Outcomes(a) + 6 * (|b.events| - |a.events|)
  }

  lemma MarkSpends(q: Queue, lost: bool)
    requires q.stage.Answered? && Current(q, q.stage.record) && RecordOk(q.stage.record, q.now)
    ensures Spends(q, Marked(q, lost))
  {
    MarkCountsOutcome(q, lost);
    MarkLowersPotential(q, lost);
    MarkOfOne(q, lost, q.stage.record.id);
    assert |Marked(q, lost).events.Keys| == |q.events.Keys|;
  }

  /** The measure falls with every recorded outcome, rises by six with every enqueue, and otherwise stays. */
  lemma PotentialFalls(q: Queue, move: Move)
    requires Inv(q) && Enabled(q, move)
    ensures Spends(q, Step(q, move))
  {
    match move
    case Enqueue(id, payload) => EnqueueRaisesPotential(q, id, payload);
    case Mark(lost) =>
      assert q.stage.record in InHand(q);
      assert Current(q, q.stage.record);
      MarkSpends(q, lost);
    case Post(_) =>
      CountConcat(q.history, [Posted(q.stage.todo[0].id)], IsOutcome());
      FilterOne(Posted(q.stage.todo[0].id), IsOutcome());
    case _ =>
  }

  lemma PotentialIsNatural(q: Queue)
    requires RecordsOk(q)
    ensures Potential(q) >= 0
  {
    forall id | id in q.events ensures Budget(q.events)(id) >= 0 {
      assert RecordOk(q.events[id], q.now);
    }
    SumNonNegative(q.events.Keys, Budget(q.events));
  }

  lemma {:induction false} RunSpendsPotential(q: Queue, moves: seq<Move>)
    requires Inv(q) && IsRun(q, moves)
    ensures Spends(q, After(q, moves))
    decreases |moves|
  {
    if moves != [] {
      PotentialFalls(q, moves[0]);
      StepKeepsInv(q, moves[0]);
      RunSpendsPotential(Step(q, moves[0]), moves[1..]);
    }
  }

  /** Finitely many enqueues cause finitely many recorded outcomes: six per event at most. */
  lemma OutcomesAreBounded(q: Queue)
    requires Reachable(q)
    ensures Outcomes(q) <= 6 * |q.events|
  {
    var now, moves :| IsRun(Initial(now), moves) && After(Initial(now), moves) == q;
    RunSpendsPotential(Initial(now), moves);
    ReachableInv(q);
    PotentialIsNatural(q);
  }
}
