/**
 * The order of a payment's events with any number of workers: it is the order
 * of its history exactly when no later event is enqueued while the event of
 * its detection is still in some worker's hands.
 */
module SettlementOvertaking {
  import opened Wrappers
  import opened Collections
  import opened PaymentCore
  import opened PaymentTable
  import opened Settlement
  import opened SettlementSafety
  import opened SettlementLifecycle
  import opened SettlementEvents
  import opened Subsequences
  import SettlementOrder

  // === What is told of a payment

  /** The statuses the tried events of a payment name, in order. */
  function Told(emissions: seq<Emission>, id: Uuid): seq<PaymentStatus> {
    if emissions == [] then []
    else
      var last := emissions[|emissions| - 1];
      Told(emissions[..|emissions| - 1], id)
        + if last.event.payment.id == id then [NamedStatus(last.event)] else []
  }

  lemma ToldGrows(emissions: seq<Emission>, m: Emission, id: Uuid)
    ensures Told(emissions + [m], id)
         == Told(emissions, id) + if m.event.payment.id == id then [NamedStatus(m.event)] else []
  {
    assert (emissions + [m])[..|emissions|] == emissions;
  }

  lemma {:induction false} ToldCounts(emissions: seq<Emission>, id: Uuid, to: PaymentStatus)
    ensures Count(emissions, Tried(Exactly(id, to))) == Count(Told(emissions, id), IsStatus(to))
    ensures Count(emissions, Tried(AnyOf(id))) == |Told(emissions, id)|
  {
    if emissions != [] {
      var init, last := emissions[..|emissions| - 1], emissions[|emissions| - 1];
      assert emissions == init + [last];
      ToldCounts(init, id, to);
      CountOneMore(init, last, Tried(Exactly(id, to)));
      CountOneMore(init, last, Tried(AnyOf(id)));
      if last.event.payment.id == id {
        CountOneMore(Told(init, id), NamedStatus(last.event), IsStatus(to));
      } else {
        assert Told(init, id) + [] == Told(init, id);
      }
    }
  }

  ghost predicate DetectionInFlight(s: State, id: Uuid) {
    InFlight(s, Exactly(id, Detected)) != {}
  }

  /** How often an event was tried, is about to be, and was due, at most. */
  lemma ToldIsBounded(w: World, s: State, id: Uuid, to: PaymentStatus)
    requires Reachable(w, s)
    ensures Count(Told(s.shared.emissions, id), IsStatus(to)) + |InFlight(s, Exactly(id, to))|
         == Count(s.shared.log, Taken(Exactly(id, to)))
         <= Count(Trail(s.shared.log, id), IsStatus(to)) <= 1
    ensures |Told(s.shared.emissions, id)| <= |Trail(s.shared.log, id)|
    ensures IsPath(Trail(s.shared.log, id))
  {
    ReachableOk(w, s);
    ReachableBalanced(w, s, Exactly(id, to));
    ReachableBalanced(w, s, AnyOf(id));
    ToldCounts(s.shared.emissions, id, to);
    TrailCounts(s.shared.log, id, to);
    CountMonotone(s.shared.log, Taken(Exactly(id, to)), ReachedBy(id, to));
    CountMonotone(s.shared.log, Taken(AnyOf(id)), SettlementLifecycle.EntriesOf(id));
    if id !in s.shared.table.rows {
      NoTrail(s.shared.log, id);
    }
    ShortCounts(Trail(s.shared.log, id), to);
  }

  /**
   * For any number of workers: of a detection some worker took and learned
   * of, the event is yet untried exactly while it is in that worker's hands.
   */
  lemma DetectionUntriedIffInFlight(w: World, s: State, id: Uuid)
    requires Reachable(w, s) && Count(s.shared.log, Taken(Exactly(id, Detected))) == 1
    ensures Count(s.shared.emissions, Tried(Exactly(id, Detected))) == 0 <==> DetectionInFlight(s, id)
  {
    ReachableBalanced(w, s, Exactly(id, Detected));
  }

  // === Overtaking

  /** Some later status stands before Detected. */
  predicate Reversed(told: seq<PaymentStatus>) {
    exists i, j :: 0 <= i < j < |told| && !told[i].Detected? && told[j].Detected?
  }

  predicate TellsLater(told: seq<PaymentStatus>) {
    exists i :: 0 <= i < |told| && !told[i].Detected?
  }

  /** A later event was tried before the detection's, or while that is still to come. */
  ghost predicate Overtook(s: State, id: Uuid) {
    || Reversed(Told(s.shared.emissions, id))
    || (TellsLater(Told(s.shared.emissions, id)) && DetectionInFlight(s, id))
  }

  /** A worker enqueues a later event of the payment while the detection's is in flight. */
  ghost predicate Overtakes(s: State, move: Move, id: Uuid) {
    && move.By? && move.action.Emit? && PhaseOf(s, move.actor).Emitting?
    && var event := PhaseOf(s, move.actor).event;
       event.payment.id == id && !NamedStatus(event).Detected? && DetectionInFlight(s, id)
  }

  lemma ReversedGrows(told: seq<PaymentStatus>, x: PaymentStatus)
    ensures Reversed(told + [x]) <==> Reversed(told) || (x.Detected? && TellsLater(told))
    ensures TellsLater(told + [x]) <==> TellsLater(told) || !x.Detected?
  {
    var longer := told + [x];
    assert forall i :: 0 <= i < |told| ==> longer[i] == told[i];
    assert longer[|told|] == x;
    if x.Detected? && TellsLater(told) {
      var i :| 0 <= i < |told| && !told[i].Detected?;
      assert !longer[i].Detected? && longer[|told|].Detected?;
    }
    if TellsLater(told) {
      var i :| 0 <= i < |told| && !told[i].Detected?;
      assert !longer[i].Detected?;
    }
    if Reversed(told) {
      var i, j :| 0 <= i < j < |told| && !told[i].Detected? && told[j].Detected?;
      assert !longer[i].Detected? && longer[j].Detected?;
    }
  }

  // === One step

  lemma InFlightAfter(s: State, actor: nat, phase: Phase, shared: Shared, sel: Selection)
    ensures InFlight(State(shared, s.actors[actor := phase]), sel)
         == InFlight(s, sel) - {actor} + if Carries(phase, sel) then {actor} else {}
  {
  }

  /** The same told, the same in flight. */
  lemma SameOvertook(a: State, b: State, id: Uuid)
    requires Told(a.shared.emissions, id) == Told(b.shared.emissions, id)
    requires InFlight(a, Exactly(id, Detected)) == InFlight(b, Exactly(id, Detected))
    ensures Overtook(a, id) <==> Overtook(b, id)
  {
  }

  lemma OnlyOneInFlight(inFlight: set<nat>, actor: nat)
    requires actor in inFlight && |inFlight| <= 1
    ensures inFlight == {actor}
  {
    assert |inFlight - {actor}| == |inFlight| - 1;
  }

  /** One more event told, of the detection or a later one. */
  lemma OneMoreTold(a: State, b: State, actor: nat, x: PaymentStatus, id: Uuid)
    requires Told(b.shared.emissions, id) == Told(a.shared.emissions, id) + [x]
    requires |InFlight(a, Exactly(id, Detected))| <= 1
    requires x.Detected? <==> actor in InFlight(a, Exactly(id, Detected))
    requires InFlight(b, Exactly(id, Detected)) == InFlight(a, Exactly(id, Detected)) - {actor}
    ensures Overtook(b, id) <==> Overtook(a, id) || (!x.Detected? && DetectionInFlight(a, id))
  {
    ReversedGrows(Told(a.shared.emissions, id), x);
    if x.Detected? {
      OnlyOneInFlight(InFlight(a, Exactly(id, Detected)), actor);
    }
  }

  lemma EmitOvertakes(w: World, s: State, actor: nat, succeeds: bool, id: Uuid)
    requires Reachable(w, s) && Enabled(w, s, By(actor, Emit(succeeds)))
    ensures Overtook(Step(w, s, By(actor, Emit(succeeds))), id)
       <==> Overtook(s, id) || Overtakes(s, By(actor, Emit(succeeds)), id)
  {
    var phase, s' := PhaseOf(s, actor), Step(w, s, By(actor, Emit(succeeds)));
    ToldGrows(s.shared.emissions, Emission(phase.event, succeeds, s.shared.now), id);
    InFlightAfter(s, actor, Reviewing(phase.todo), s'.shared, Exactly(id, Detected));
    if phase.event.payment.id == id {
      ToldIsBounded(w, s, id, Detected);
      OneMoreTold(s, s', actor, NamedStatus(phase.event), id);
    } else {
      assert Told(s.shared.emissions, id) + [] == Told(s.shared.emissions, id);
      SameOvertook(s, s', id);
    }
  }

  lemma PendingHasNoTrail(trail: seq<PaymentStatus>)
    requires IsPath(trail) && EndOf(trail).Pending?
    ensures trail == []
  {
    PathShape(trail);
  }

  /** Nothing is told of a payment that is still Pending. */
  lemma NothingToldOfPending(w: World, s: State, id: Uuid)
    requires Reachable(w, s) && id in s.shared.table.rows && s.shared.table.rows[id].status.Pending?
    ensures Told(s.shared.emissions, id) == []
  {
    HistoriesArePaths(w, s, id, Detected);
    ToldIsBounded(w, s, id, Detected);
    PendingHasNoTrail(Trail(s.shared.log, id));
  }

  lemma NothingToldNothingOvertaken(s: State, id: Uuid)
    requires Told(s.shared.emissions, id) == []
    ensures !Overtook(s, id)
  {
  }

  lemma UpdatedFromPending(
    sh: Shared, p: Payment, next: PaymentStatus, hash: Option<string>, todo: seq<Payment>, reply: Reply, id: Uuid)
    requires RowsKeyed(sh.table) && Carries(Updated(sh, p, next, hash, todo, reply).1, Exactly(id, Detected))
    ensures id in sh.table.rows && sh.table.rows[id].status.Pending?
  {
  }

  lemma UpdateOvertakesNothing(w: World, s: State, actor: nat, reply: Reply, id: Uuid)
    requires Reachable(w, s) && Enabled(w, s, By(actor, Update(reply)))
    ensures Overtook(Step(w, s, By(actor, Update(reply))), id) <==> Overtook(s, id)
  {
    var phase, s' := PhaseOf(s, actor), Step(w, s, By(actor, Update(reply)));
    var (shared, next) := Updated(s.shared, phase.payment, phase.next, phase.hash, phase.todo, reply);
    assert s' == State(shared, s.actors[actor := next]) && shared.emissions == s.shared.emissions;
    if Carries(next, Exactly(id, Detected)) {
      ReachableOk(w, s);
      UpdatedFromPending(s.shared, phase.payment, phase.next, phase.hash, phase.todo, reply, id);
      NothingToldOfPending(w, s, id);
      NothingToldNothingOvertaken(s, id);
      NothingToldNothingOvertaken(s', id);
    } else {
      InFlightAfter(s, actor, next, shared, Exactly(id, Detected));
      SameOvertook(s, s', id);
    }
  }

  lemma QuietStepOvertakesNothing(w: World, s: State, actor: nat, action: Action, id: Uuid)
    requires Enabled(w, s, By(actor, action)) && !action.Emit? && !action.Update?
    ensures Overtook(Step(w, s, By(actor, action)), id) <==> Overtook(s, id)
  {
    var (shared, phase) := Act(w, s.shared, PhaseOf(s, actor), action);
    InFlightAfter(s, actor, phase, shared, Exactly(id, Detected));
    assert shared.emissions == s.shared.emissions;
    SameOvertook(s, Step(w, s, By(actor, action)), id);
  }

  lemma StepOvertakesIff(w: World, s: State, move: Move, id: Uuid)
    requires Reachable(w, s) && Enabled(w, s, move)
    ensures Overtook(Step(w, s, move), id) <==> Overtook(s, id) || Overtakes(s, move, id)
  {
    match move
    case Tick(_) => assert InFlight(Step(w, s, move), Exactly(id, Detected)) == InFlight(s, Exactly(id, Detected));
    case Append(_) => assert InFlight(Step(w, s, move), Exactly(id, Detected)) == InFlight(s, Exactly(id, Detected));
    case By(actor, action) =>
      match action {
        case Emit(succeeds) => EmitOvertakes(w, s, actor, succeeds, id);
        case Update(reply) => UpdateOvertakesNothing(w, s, actor, reply, id);
        case _ => QuietStepOvertakesNothing(w, s, actor, action, id);
      }
  }

  // === Whole runs

  /** No worker enqueues a later event of the payment while the detection's is in flight. */
  ghost predicate NoOvertaking(w: World, s: State, moves: seq<Move>, id: Uuid)
    requires IsRun(w, s, moves)
    decreases |moves|
  {
    moves == [] || (!Overtakes(s, moves[0], id) && NoOvertaking(w, Step(w, s, moves[0]), moves[1..], id))
  }

  lemma {:induction false} RunOvertakesIff(w: World, s: State, moves: seq<Move>, id: Uuid)
    requires Reachable(w, s) && IsRun(w, s, moves)
    ensures Overtook(After(w, s, moves), id) <==> Overtook(s, id) || !NoOvertaking(w, s, moves, id)
    decreases |moves|
  {
    if moves != [] {
      StepOvertakesIff(w, s, moves[0], id);
      RunsReach(w, s, moves[0]);
      RunOvertakesIff(w, Step(w, s, moves[0]), moves[1..], id);
    }
  }

  // === In the order of history

  lemma ToldIsInTrail(w: World, s: State, id: Uuid, i: nat)
    requires Reachable(w, s) && i < |Told(s.shared.emissions, id)|
    ensures Told(s.shared.emissions, id)[i] in Trail(s.shared.log, id)
  {
    var told, trail := Told(s.shared.emissions, id), Trail(s.shared.log, id);
    assert told[i] in Filter(told, IsStatus(told[i]));
    ToldIsBounded(w, s, id, told[i]);
    assert Filter(trail, IsStatus(told[i]))[0] in trail;
  }

  lemma {:induction false} CountOfPair(a: PaymentStatus, b: PaymentStatus)
    ensures Count([a, b], IsStatus(a)) == if a == b then 2 else 1
  {
    assert [a, b] == [a] + [b];
    CountOneMore([a], b, IsStatus(a));
    FilterOne(a, IsStatus(a));
  }

  lemma PairInOrder(told: seq<PaymentStatus>, trail: seq<PaymentStatus>)
    requires |told| == 2 && |trail| == 2 && trail[0].Detected? && !trail[1].Detected?
    requires told[0] != told[1] && told[0] in trail && told[1] in trail
    ensures IsSubsequence(told, trail) <==> !Reversed(told)
  {
    assert told == [told[0], told[1]] && trail == [trail[0], trail[1]];
    if told[0].Detected? {
      assert told == trail;
      PrefixIsSubsequence(told, trail);
    } else {
      var x := told[0];
      assert Reversed(told);
      assert trail[1..] == [x] && [x][1..] == [] && told[1..] == [told[1]];
      assert !IsSubsequence(told, []) && !IsSubsequence([told[1]], []);
      assert !IsSubsequence(told, [x]);
    }
  }

  lemma {:induction false} SingleInOrder(x: PaymentStatus, trail: seq<PaymentStatus>)
    requires x in trail
    ensures IsSubsequence([x], trail)
  {
    if trail[0] == x {
      assert [x][1..] == [] && IsSubsequence([], trail[1..]);
    } else {
      assert trail == [trail[0]] + trail[1..];
      SingleInOrder(x, trail[1..]);
    }
  }

  /** What was tried follows the history exactly when nothing stands before the detection. */
  lemma InOrderIffNotReversed(w: World, s: State, id: Uuid)
    requires Reachable(w, s)
    ensures IsSubsequence(Told(s.shared.emissions, id), Trail(s.shared.log, id))
       <==> !Reversed(Told(s.shared.emissions, id))
  {
    var told, trail := Told(s.shared.emissions, id), Trail(s.shared.log, id);
    ToldIsBounded(w, s, id, Detected);
    PathShape(trail);
    if |told| == 1 {
      ToldIsInTrail(w, s, id, 0);
      assert told == [told[0]];
      SingleInOrder(told[0], trail);
    } else if |told| == 2 {
      ToldIsInTrail(w, s, id, 0);
      ToldIsInTrail(w, s, id, 1);
      ToldIsBounded(w, s, id, told[0]);
      assert told == [told[0], told[1]];
      CountOfPair(told[0], told[1]);
      PairInOrder(told, trail);
    }
  }

  /**
   * Over any run, with any number of workers: the events tried for a payment
   * follow its history, and none still in flight will break that, if and only
   * if no worker enqueued a later event of it while its detection's was in
   * another's hands.
   */
  lemma EventsFollowHistoryIffNoOvertaking(w: World, now: Time, moves: seq<Move>, id: Uuid)
    requires IsRun(w, Initial(now), moves)
    ensures
      var s := After(w, Initial(now), moves);
      var told := Told(s.shared.emissions, id);
      && IsSubsequence(told, Trail(s.shared.log, id))
      && !(TellsLater(told) && DetectionInFlight(s, id))
      <==> NoOvertaking(w, Initial(now), moves, id)
  {
    var s := After(w, Initial(now), moves);
    InitialIsReachable(w, now);
    RunOvertakesIff(w, Initial(now), moves, id);
    assert Reachable(w, s);
    InOrderIffNotReversed(w, s, id);
  }

  // === One worker

  lemma OvertakingTakesTwo(w: World, s: State, move: Move, id: Uuid)
    requires Enabled(w, s, move) && Overtakes(s, move, id)
    ensures !SettlementOrder.OneWorker(s)
  {
    var other :| other in InFlight(s, Exactly(id, Detected));
    assert IsWorker(s.actors[other]) && IsWorker(s.actors[move.actor]) && other != move.actor;
  }

  lemma WorkersOnlyGrow(w: World, s: State, move: Move)
    requires Enabled(w, s, move)
    ensures SettlementOrder.OneWorker(Step(w, s, move)) ==> SettlementOrder.OneWorker(s)
  {
    var s' := Step(w, s, move);
    forall a | a in s.actors && IsWorker(s.actors[a]) ensures a in s'.actors && IsWorker(s'.actors[a]) {
      if move.By? && move.actor == a {
        SettlementOrder.WorkersStayWorkers(w, s.shared, s.actors[a], move.action);
      }
    }
  }

  /** A single worker never overtakes itself. */
  lemma {:induction false} OneWorkerNeverOvertakes(w: World, s: State, moves: seq<Move>, id: Uuid)
    requires IsRun(w, s, moves) && SettlementOrder.OneWorker(After(w, s, moves))
    ensures SettlementOrder.OneWorker(s) && NoOvertaking(w, s, moves, id)
    decreases |moves|
  {
    if moves != [] {
      OneWorkerNeverOvertakes(w, Step(w, s, moves[0]), moves[1..], id);
      WorkersOnlyGrow(w, s, moves[0]);
      if Overtakes(s, moves[0], id) {
        OvertakingTakesTwo(w, s, moves[0], id);
      }
    }
  }
}
