/**
 * Why the order of a listing needs a clock that moves on: two enqueues of one
 * payment at one time may be listed either way round, even with one worker.
 */
module SettlementTies {
  import opened Collections
  import opened PaymentCore
  import opened PaymentTable
  import opened Settlement
  import opened SettlementRace
  import opened SettlementDelivery
  import opened SettlementListing
  import SettlementOrder
  import WebhookRepository

  function Detection(): Emission {
    Emission(PaymentDetected(FromRow(DetectedRow())), true, 0)
  }

  function Confirmation(): Emission {
    Emission(PaymentConfirmed(FromRow(ConfirmedRow())), true, 0)
  }

  function WithWorker(phase: Phase): map<nat, Phase> {
    map[0 := Done, 1 := phase]
  }

  lemma WorkerMoves(actors: map<nat, Phase>, phase: Phase)
    requires actors.Keys <= {0, 1} && 0 in actors && actors[0] == Done
    ensures actors[1 := phase] == WithWorker(phase)
  {
  }

  lemma OneWorkerReportsDetection() returns (s: State)
    ensures Scene(s, DetectedRow(), [Detection()]) && s.actors == WithWorker(Reviewing([]))
  {
    var created := CreateThePayment();
    s := Starts(created, StoredRow(), [], 1);
    WorkerMoves(created.actors, Idle);
    s := Detects(s, [], 1);
    WorkerMoves(WithWorker(Idle), Emitting(Detection().event, []));
    s := Emits(s, DetectedRow(), [], 1, Detection().event);
    WorkerMoves(WithWorker(Emitting(Detection().event, [])), Reviewing([]));
    assert [] + [Detection()] == [Detection()];
  }

  lemma OneWorkerConfirms() returns (s: State)
    ensures Scene(s, ConfirmedRow(), [Detection()]) && s.actors == WithWorker(Emitting(Confirmation().event, []))
  {
    s := OneWorkerReportsDetection();
    s := Go(s, 1, Finish);
    WorkerMoves(WithWorker(Reviewing([])), Idle);
    s := Confirms(s, [Detection()], 1);
    WorkerMoves(WithWorker(Idle), Emitting(Confirmation().event, []));
  }

  lemma OnlyOneWorker(s: State, phase: Phase)
    requires s.actors == WithWorker(phase)
    ensures SettlementOrder.OneWorker(s)
  {
    assert !IsWorker(s.actors[0]);
  }

  /** One worker detects and confirms the payment in two passes, and enqueues both events in the same instant. */
  lemma OneWorkerReportsBoth() returns (s: State)
    ensures Scene(s, ConfirmedRow(), [Detection(), Confirmation()]) && SettlementOrder.OneWorker(s)
  {
    s := OneWorkerConfirms();
    s := Emits(s, ConfirmedRow(), [Detection()], 1, Confirmation().event);
    assert [Detection()] + [Confirmation()] == [Detection(), Confirmation()];
    WorkerMoves(WithWorker(Emitting(Confirmation().event, [])), Reviewing([]));
    OnlyOneWorker(s, Reviewing([]));
  }

  lemma BothAreKept(j: Joint)
    requires j.settlement.shared.emissions == [Detection(), Confirmation()]
    ensures Kept(j, 1) == [Detection(), Confirmation()]
  {
    assert [Detection(), Confirmation()] == [Detection()] + [Confirmation()];
    forall p: Emission -> bool | p == SettlementOrder.EmittedFor(1) || p == WasEnqueued()
      ensures Filter([Detection(), Confirmation()], p) == [Detection(), Confirmation()]
    {
      FilterConcat([Detection()], [Confirmation()], p);
      FilterOne(Detection(), p);
      FilterOne(Confirmation(), p);
    }
  }

  /** A joint run with one worker, both events of a payment at one time, and a listing that has them backwards. */
  lemma OneWorkerMayBeListedBackwards()
    returns (w: World, now: Time, moves: seq<JointMove>, listing: seq<WebhookRepository.EventRecord>)
    ensures IsJointRun(w, Started(now), moves)
    ensures
      var j := AfterJoint(w, Started(now), moves);
      && SettlementOrder.OneWorker(j.settlement) && !ClockMovesOn(j, 1)
      && IsListing(j, 1, listing) && !FollowsHistory(j, 1, listing)
  {
    w := TheWorld();
    var s := OneWorkerReportsBoth();
    var start, run :| IsRun(w, Initial(start), run) && After(w, Initial(start), run) == s;
    now := start;
    moves := SettlementRunIsJoint(w, Started(now), run);
    var j := AfterJoint(w, Started(now), moves);
    BothAreKept(j);
    assert !ClockMovesOn(j, 1);
    ListingFollowsHistory(w, now, moves, 1);
    listing :| IsListing(j, 1, listing) && !FollowsHistory(j, 1, listing);
  }
}
