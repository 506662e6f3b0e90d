/**
 * The settlement machine and the outbox machine run together: an enqueue that
 * succeeds in the one is an enqueue in the other, deliveries come in between,
 * and both read one clock.
 */
module SettlementDelivery {
  import opened Wrappers
  import opened Collections
  import opened HashTable
  import opened PaymentCore
  import opened Settlement
  import opened SettlementSafety
  import opened PaymentTable
  import SettlementEvents
  import Outbox
  import OutboxProperties
  import WebhookRepository

  // === The joint machine

  /** `filed` lists the ids of the event records in the order they were enqueued. */
  datatype Joint = Joint(settlement: State, outbox: Outbox.Queue, filed: seq<Uuid>)

  datatype JointMove =
    | Pass(to: Time)
    | Settle(move: Move)
    | Publish(actor: nat, eventId: Uuid)
    | Deliver(delivery: Outbox.Move)

  /** Steps that do not concern both: the clock and successful enqueues are moves of their own. */
  predicate IsSettlementsOwn(move: Move) {
    !move.Tick? && !(move.By? && move.action == Emit(true))
  }

  predicate IsOutboxsOwn(move: Outbox.Move) {
    !move.Tick? && !move.Enqueue?
  }

  ghost predicate CanMove(w: World, j: Joint, move: JointMove) {
    match move
    case Pass(to) => to >= j.settlement.shared.now
    case Settle(m) => IsSettlementsOwn(m) && Enabled(w, j.settlement, m)
    case Publish(actor, eventId) => Enabled(w, j.settlement, By(actor, Emit(true))) && eventId !in j.outbox.events
    case Deliver(m) => IsOutboxsOwn(m) && Outbox.Enabled(j.outbox, m)
  }

  /** The settlement machine's share of a move, if it has one. */
  function SettlementShare(move: JointMove): Option<Move> {
    match move
    case Pass(to) => Some(Tick(to))
    case Settle(m) => Some(m)
    case Publish(actor, _) => Some(By(actor, Emit(true)))
    case Deliver(_) => None
  }

  /** The outbox's share. */
  function OutboxShare(j: Joint, move: JointMove): Option<Outbox.Move> {
    match move
    case Pass(to) => Some(Outbox.Tick(to))
    case Settle(_) => None
    case Publish(actor, eventId) =>
      var phase := PhaseOf(j.settlement, actor);
      if phase.Emitting? then Some(Outbox.Enqueue(eventId, phase.event)) else None
    case Deliver(m) => Some(m)
  }

  ghost predicate InTime(j: Joint) {
    j.outbox.now == j.settlement.shared.now
  }

  ghost function Moved(w: World, j: Joint, move: JointMove): Joint
    requires InTime(j) && CanMove(w, j, move)
  {
    Joint(
      if SettlementShare(move).Some? then Step(w, j.settlement, SettlementShare(move).value) else j.settlement,
      if OutboxShare(j, move).Some? then Outbox.Step(j.outbox, OutboxShare(j, move).value) else j.outbox,
      if move.Publish? then j.filed + [move.eventId] else j.filed)
  }

  function Started(now: Time): Joint {
    Joint(Initial(now), Outbox.Initial(now), [])
  }

  // === What was enqueued is what is stored

  function WasEnqueued(): Emission -> bool {
    (m: Emission) => m.enqueued
  }

  function EnqueuedOf(emissions: seq<Emission>): seq<Emission> {
    Filter(emissions, WasEnqueued())
  }

  /** The record an enqueue wrote, whatever deliveries have made of its other columns since. */
  predicate RecordOf(r: WebhookRepository.EventRecord, m: Emission) {
    r.payload == m.event && r.paymentId == m.event.payment.id && r.createdAt == m.at
  }

  /** The repository holds one record for each enqueue, and `filed` lists their ids in order. */
  ghost predicate Stores(events: WebhookRepository.Events, filed: seq<Uuid>, enqueued: seq<Emission>) {
    && KeyedBy(events, WebhookRepository.EventId())
    && Enumerates(filed, events.Keys)
    && |filed| == |enqueued|
    && (forall i :: 0 <= i < |filed| ==> RecordOf(events[filed[i]], enqueued[i]))
  }

  /** Enqueueing an event appends it to what is stored. */
  lemma EnqueueIsStored(
    events: WebhookRepository.Events, filed: seq<Uuid>, enqueued: seq<Emission>, id: Uuid, m: Emission)
    requires Stores(events, filed, enqueued) && id !in events
    ensures Stores(events[id := WebhookRepository.NewRecord(id, m.event, m.at)], filed + [id], enqueued + [m])
  {
    var longer := filed + [id];
    assert multiset(longer) == multiset(filed) + multiset{id};
    assert id !in multiset(filed);
    forall x ensures multiset(longer)[x] <= 1 {
      assert multiset(filed)[x] <= 1;
    }
    forall i | 0 <= i < |filed| ensures longer[i] == filed[i] && longer[i] != id && filed[i] in events {
      assert filed[i] in filed;
    }
  }

  /** Later records of the same events. */
  ghost predicate SameEvents(a: WebhookRepository.Events, b: WebhookRepository.Events) {
    && a.Keys == b.Keys
    && forall id :: id in a ==>
         && b[id].id == a[id].id && b[id].payload == a[id].payload
         && b[id].paymentId == a[id].paymentId && b[id].createdAt == a[id].createdAt
  }

  lemma SameEventsAreStored(
    a: WebhookRepository.Events, b: WebhookRepository.Events, filed: seq<Uuid>, enqueued: seq<Emission>)
    requires Stores(a, filed, enqueued) && SameEvents(a, b)
    ensures Stores(b, filed, enqueued)
  {
    forall id | id in b ensures WebhookRepository.EventId()(b[id]) == id {
      assert WebhookRepository.EventId()(a[id]) == id;
    }
    forall i | 0 <= i < |filed| ensures filed[i] in b && RecordOf(b[filed[i]], enqueued[i]) {
      assert filed[i] in filed;
      assert RecordOf(a[filed[i]], enqueued[i]);
    }
  }

  /** Deliveries, marks and lost marks leave every stored record the record of the same enqueue. */
  lemma DeliveriesKeepEvents(q: Outbox.Queue, move: Outbox.Move)
    requires Outbox.Inv(q) && Outbox.Enabled(q, move) && !move.Enqueue?
    ensures SameEvents(q.events, Outbox.Step(q, move).events)
  {
    if move.Mark? {
      assert q.stage.record in Outbox.InHand(q);
      assert Outbox.Current(q, q.stage.record);
      Outbox.MarkOfOne(q, move.lost, q.stage.record.id);
      forall id | id in q.events
        ensures
          var a, b := q.events[id], Outbox.Step(q, move).events[id];
          b.id == a.id && b.payload == a.payload && b.paymentId == a.paymentId && b.createdAt == a.createdAt
      {
        Outbox.MarkOfOne(q, move.lost, id);
      }
    }
  }

  // === Every joint run

  ghost predicate JointInv(w: World, j: Joint) {
    && Reachable(w, j.settlement) && Outbox.Reachable(j.outbox) && InTime(j)
    && Stores(j.outbox.events, j.filed, EnqueuedOf(j.settlement.shared.emissions))
  }

  lemma OnlyTicksTick(w: World, s: State, move: Move)
    requires Enabled(w, s, move) && !move.Tick?
    ensures Step(w, s, move).shared.now == s.shared.now
  {
  }

  lemma ClocksStand(w: World, j: Joint, move: JointMove)
    requires InTime(j) && CanMove(w, j, move)
    ensures InTime(Moved(w, j, move))
  {
    match move
    case Settle(m) => OnlyTicksTick(w, j.settlement, m);
    case Publish(actor, _) => OnlyTicksTick(w, j.settlement, By(actor, Emit(true)));
    case _ =>
  }

  lemma SharesAreEnabled(w: World, j: Joint, move: JointMove)
    requires InTime(j) && CanMove(w, j, move)
    ensures SettlementShare(move).Some? ==> Enabled(w, j.settlement, SettlementShare(move).value)
    ensures OutboxShare(j, move).Some? ==> Outbox.Enabled(j.outbox, OutboxShare(j, move).value)
    ensures move.Publish? ==> OutboxShare(j, move).Some?
    ensures InTime(Moved(w, j, move))
  {
    ClocksStand(w, j, move);
  }

  /** Failed enqueues and other steps add nothing to what was enqueued. */
  lemma OwnStepsEnqueueNothing(w: World, s: State, move: Move)
    requires Enabled(w, s, move) && (IsSettlementsOwn(move) || move.Tick?)
    ensures EnqueuedOf(Step(w, s, move).shared.emissions) == EnqueuedOf(s.shared.emissions)
  {
    if move.By? && move.action.Emit? {
      var m := Emission(PhaseOf(s, move.actor).event, false, s.shared.now);
      FilterConcat(s.shared.emissions, [m], WasEnqueued());
      FilterOne(m, WasEnqueued());
      assert EnqueuedOf(s.shared.emissions) + [] == EnqueuedOf(s.shared.emissions);
    } else {
      assert Step(w, s, move).shared.emissions == s.shared.emissions;
    }
  }

  lemma OneMoreEnqueued(emissions: seq<Emission>, m: Emission)
    requires m.enqueued
    ensures EnqueuedOf(emissions + [m]) == EnqueuedOf(emissions) + [m]
  {
    FilterConcat(emissions, [m], WasEnqueued());
    FilterOne(m, WasEnqueued());
  }

  lemma PublishIsStored(w: World, j: Joint, actor: nat, eventId: Uuid)
    requires JointInv(w, j) && CanMove(w, j, Publish(actor, eventId))
    ensures
      var j' := Moved(w, j, Publish(actor, eventId));
      Stores(j'.outbox.events, j'.filed, EnqueuedOf(j'.settlement.shared.emissions))
  {
    var emissions, event := j.settlement.shared.emissions, PhaseOf(j.settlement, actor).event;
    var m := Emission(event, true, j.settlement.shared.now);
    var j' := Moved(w, j, Publish(actor, eventId));
    OneMoreEnqueued(emissions, m);
    EnqueueIsStored(j.outbox.events, j.filed, EnqueuedOf(emissions), eventId, m);
    assert j'.settlement.shared.emissions == emissions + [m] && j'.filed == j.filed + [eventId];
    assert j'.outbox.events == j.outbox.events[eventId := WebhookRepository.NewRecord(eventId, event, m.at)];
  }

  lemma MoveKeepsStores(w: World, j: Joint, move: JointMove)
    requires JointInv(w, j) && CanMove(w, j, move)
    ensures
      var j' := Moved(w, j, move);
      Stores(j'.outbox.events, j'.filed, EnqueuedOf(j'.settlement.shared.emissions))
  {
    match move
    case Pass(to) => OwnStepsEnqueueNothing(w, j.settlement, Tick(to));
    case Settle(m) => OwnStepsEnqueueNothing(w, j.settlement, m);
    case Publish(actor, eventId) => PublishIsStored(w, j, actor, eventId);
    case Deliver(m) =>
      Outbox.ReachableInv(j.outbox);
      DeliveriesKeepEvents(j.outbox, m);
      SameEventsAreStored(j.outbox.events, Outbox.Step(j.outbox, m).events, j.filed,
                          EnqueuedOf(j.settlement.shared.emissions));
  }

  lemma MoveKeepsJointInv(w: World, j: Joint, move: JointMove)
    requires JointInv(w, j) && CanMove(w, j, move)
    ensures JointInv(w, Moved(w, j, move))
  {
    SharesAreEnabled(w, j, move);
    MoveKeepsStores(w, j, move);
    if SettlementShare(move).Some? {
      RunsReach(w, j.settlement, SettlementShare(move).value);
    }
    if OutboxShare(j, move).Some? {
      Outbox.RunsReach(j.outbox, OutboxShare(j, move).value);
    }
  }

  ghost predicate IsJointRun(w: World, j: Joint, moves: seq<JointMove>)
    decreases |moves|
  {
    InTime(j) && (moves == [] || (CanMove(w, j, moves[0]) && IsJointRun(w, Moved(w, j, moves[0]), moves[1..])))
  }

  ghost function AfterJoint(w: World, j: Joint, moves: seq<JointMove>): Joint
    requires IsJointRun(w, j, moves)
    decreases |moves|
  {
    if moves == [] then j else AfterJoint(w, Moved(w, j, moves[0]), moves[1..])
  }

  lemma {:induction false} JointRunKeepsInv(w: World, j: Joint, moves: seq<JointMove>)
    requires JointInv(w, j) && IsJointRun(w, j, moves)
    ensures JointInv(w, AfterJoint(w, j, moves))
    decreases |moves|
  {
    if moves != [] {
      MoveKeepsJointInv(w, j, moves[0]);
      JointRunKeepsInv(w, Moved(w, j, moves[0]), moves[1..]);
    }
  }

  /**
   * In every state a joint run reaches, the repository holds exactly the
   * events the workers enqueued, one record each, whatever was delivered in
   * between; and each machine is in a state it reaches on its own.
   */
  lemma OutboxHoldsWhatWasEnqueued(w: World, now: Time, moves: seq<JointMove>)
    requires IsJointRun(w, Started(now), moves)
    ensures
      var j := AfterJoint(w, Started(now), moves);
      && Reachable(w, j.settlement) && Outbox.Reachable(j.outbox)
      && Stores(j.outbox.events, j.filed, EnqueuedOf(j.settlement.shared.emissions))
  {
    InitialIsReachable(w, now);
    Outbox.InitialIsReachable(now);
    JointRunKeepsInv(w, Started(now), moves);
  }

  lemma StoredIsEnqueued(events: WebhookRepository.Events, filed: seq<Uuid>, emissions: seq<Emission>, id: Uuid)
    returns (m: Emission)
    requires Stores(events, filed, EnqueuedOf(emissions)) && id in events
    ensures m in emissions && RecordOf(events[id], m)
  {
    assert id in filed;
    var i :| 0 <= i < |filed| && filed[i] == id;
    m := EnqueuedOf(emissions)[i];
    assert m in EnqueuedOf(emissions);
  }

  /**
   * And what the merchant is told is true: the type of a stored record spells
   * out the status of the payment in it, which is a version of a stored row.
   */
  lemma StoredTypesTellTheStatus(w: World, now: Time, moves: seq<JointMove>, id: Uuid)
    requires IsJointRun(w, Started(now), moves) && id in AfterJoint(w, Started(now), moves).outbox.events
    ensures
      var j := AfterJoint(w, Started(now), moves);
      var r := j.outbox.events[id];
      && r.eventType == "payment." + StatusText(r.payload.payment.status)
      && r.paymentId == r.payload.payment.id && r.paymentId in j.settlement.shared.table.rows
      && PaymentLater(r.payload.payment, FromRow(j.settlement.shared.table.rows[r.paymentId]))
  {
    var j := AfterJoint(w, Started(now), moves);
    OutboxHoldsWhatWasEnqueued(w, now, moves);
    var m := StoredIsEnqueued(j.outbox.events, j.filed, j.settlement.shared.emissions, id);
    SettlementEvents.PayloadsNameTheirStatus(w, j.settlement, m);
    OutboxProperties.RecordsAreConsistent(j.outbox, id);
  }

  // === The settlement machine's part of a joint run

  function SettlementMoves(moves: seq<JointMove>): seq<Move> {
    if moves == [] then []
    else
      (if SettlementShare(moves[0]).Some? then [SettlementShare(moves[0]).value] else []) + SettlementMoves(moves[1..])
  }

  lemma {:induction false} JointRunIsASettlementRun(w: World, j: Joint, moves: seq<JointMove>)
    requires IsJointRun(w, j, moves)
    ensures IsRun(w, j.settlement, SettlementMoves(moves))
    ensures After(w, j.settlement, SettlementMoves(moves)) == AfterJoint(w, j, moves).settlement
    decreases |moves|
  {
    if moves != [] {
      var j', rest := Moved(w, j, moves[0]), SettlementMoves(moves[1..]);
      SharesAreEnabled(w, j, moves[0]);
      JointRunIsASettlementRun(w, j', moves[1..]);
      if SettlementShare(moves[0]).Some? {
        assert ([SettlementShare(moves[0]).value] + rest)[1..] == rest;
      } else {
        assert [] + rest == rest;
      }
    }
  }

  // === Every settlement run is such a part

  lemma {:induction false} IdsAreBounded(ids: set<Uuid>) returns (bound: Uuid)
    ensures forall id :: id in ids ==> id < bound
    decreases |ids|
  {
    bound := 0;
    if id :| id in ids {
      var rest := IdsAreBounded(ids - {id});
      bound := if id < rest then rest else id + 1;
      assert forall other :: other in ids ==> other == id || other in ids - {id};
    }
  }

  /** The joint move with the given settlement share; an enqueue that succeeds gets a new id. */
  lemma JointMoveOf(w: World, j: Joint, move: Move) returns (joint: JointMove)
    requires InTime(j) && Enabled(w, j.settlement, move)
    ensures CanMove(w, j, joint) && SettlementShare(joint) == Some(move)
  {
    if move.Tick? {
      joint := Pass(move.to);
    } else if move.By? && move.action == Emit(true) {
      var id := IdsAreBounded(j.outbox.events.Keys);
      joint := Publish(move.actor, id);
    } else {
      joint := Settle(move);
    }
  }

  /** Conversely, every settlement run is the settlement part of some joint run. */
  lemma {:induction false} SettlementRunIsJoint(w: World, j: Joint, moves: seq<Move>) returns (joint: seq<JointMove>)
    requires InTime(j) && IsRun(w, j.settlement, moves)
    ensures IsJointRun(w, j, joint) && SettlementMoves(joint) == moves
    ensures AfterJoint(w, j, joint).settlement == After(w, j.settlement, moves)
    decreases |moves|
  {
    joint := [];
    if moves != [] {
      var first := JointMoveOf(w, j, moves[0]);
      ClocksStand(w, j, first);
      var rest := SettlementRunIsJoint(w, Moved(w, j, first), moves[1..]);
      joint := [first] + rest;
      assert joint[1..] == rest && [moves[0]] + moves[1..] == moves;
    }
  }
}
