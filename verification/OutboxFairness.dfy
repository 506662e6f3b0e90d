/** No starvation: how many passes an event that is due waits at most. */
module OutboxFairness {
  import opened Collections
  import opened Backoff
  import opened WebhookRepository
  import opened Outbox
  import opened OutboxProperties
  import PaymentCore

  // === Who is waiting

  /** Other events that were due by `t` as well. */
  ghost function Rivals(q: Queue, e: Uuid, t: Time): set<Uuid> {
    set id | id in q.events && id != e && IsDue(q.events[id], t)
  }

  function Ids(records: seq<EventRecord>): set<Uuid> {
    set r | r in records :: r.id
  }

  /** Rivals the loop does not hold. */
  ghost function RivalsLeft(q: Queue, e: Uuid, t: Time): set<Uuid> {
    Rivals(q, e, t) - Ids(InHand(q))
  }

  /** The event is due and the loop does not hold it. */
  ghost predicate Waiting(q: Queue, e: Uuid, t: Time) {
    q.now > t && e in q.events && IsDue(q.events[e], t) && e !in Ids(InHand(q))
  }

  /** The snapshots the loop has yet to post. */
  function ToPost(q: Queue): seq<EventRecord> {
    match q.stage
    case Resting => []
    case Delivering(todo) => todo
    case Answered(_, _, todo) => todo
  }

  predicate NothingLost(moves: seq<Move>) {
    forall i :: 0 <= i < |moves| ==> moves[i] != Mark(true)
  }

  /** Marks lost during a run. */
  function Lost(moves: seq<Move>): nat {
    if moves == [] then 0 else (if moves[0] == Mark(true) then 1 else 0) + Lost(moves[1..])
  }

  /** Passes completed during a run. */
  function Passes(moves: seq<Move>): nat {
    if moves == [] then 0 else (if moves[0].Rest? then 1 else 0) + Passes(moves[1..])
  }

  function PostsOf(q: Queue, e: Uuid): nat {
    Count(q.history, Posts(e))
  }

  lemma StepPosts(q: Queue, move: Move, e: Uuid)
    requires Enabled(q, move)
    ensures PostsOf(Step(q, move), e)
         == PostsOf(q, e) + if move.Post? && q.stage.todo[0].id == e then 1 else 0
  {
    var q' := Step(q, move);
    if q'.history != q.history {
      PostsGrow(q.history, q'.history[|q.history|], e);
      assert q'.history == q.history + [q'.history[|q.history|]];
    }
  }

  lemma {:induction false} PostsOnlyGrow(q: Queue, moves: seq<Move>, e: Uuid)
    requires IsRun(q, moves)
    ensures PostsOf(After(q, moves), e) >= PostsOf(q, e)
    decreases |moves|
  {
    if moves != [] {
      StepPosts(q, moves[0], e);
      PostsOnlyGrow(Step(q, moves[0]), moves[1..], e);
    }
  }

  // === Once fetched

  /** An event the loop holds is posted before the pass is over. */
  lemma {:induction false} HeldIsPosted(q: Queue, moves: seq<Move>, e: Uuid)
    requires IsRun(q, moves) && e in Ids(ToPost(q)) && Passes(moves) >= 1
    ensures PostsOf(After(q, moves), e) > PostsOf(q, e)
    decreases |moves|
  {
    var q' := Step(q, moves[0]);
    StepPosts(q, moves[0], e);
    if moves[0].Post? && q.stage.todo[0].id == e {
      PostsOnlyGrow(q', moves[1..], e);
    } else {
      assert q.stage != Resting;
      var r :| r in ToPost(q) && r.id == e;
      if moves[0].Post? {
        assert r in ToPost(q') by {
          assert q.stage.todo == [q.stage.todo[0]] + q.stage.todo[1..];
        }
      }
      HeldIsPosted(q', moves[1..], e);
    }
  }

  // === Until fetched

  lemma {:induction false} DistinctIds(events: Events, batch: seq<EventRecord>)
    requires NoDuplicates(batch) && forall r :: r in batch ==> r.id in events && events[r.id] == r
    ensures |Ids(batch)| == |batch|
  {
    if batch != [] {
      var first, rest := batch[0], batch[1..];
      TailOfHand(batch);
      DistinctIds(events, rest);
      assert batch == [first] + rest;
      assert Ids(batch) == Ids(rest) + {first.id};
      assert forall r :: r in rest ==> r != first && r.id != first.id;
    }
  }

  /** A batch without the event is a full one, and holds fifty of its rivals. */
  lemma BatchWithoutIsFullOfRivals(q: Queue, batch: seq<EventRecord>, e: Uuid, t: Time)
    requires RecordsOk(q) && Waiting(q, e, t) && q.stage.Resting?
    requires IsDueBatch(q.events, q.now, FETCH_BATCH_SIZE, batch) && e !in Ids(batch)
    ensures Ids(batch) <= Rivals(q, e, t) && |Ids(batch)| == 50
  {
    assert EventId()(q.events[e]) == e;
    assert q.events[e] !in batch;
    assert IsDue(q.events[e], q.now);
    DistinctIds(q.events, batch);
    forall r | r in batch ensures r.id in Rivals(q, e, t) {
      assert NextAttempt()(r) <= NextAttempt()(q.events[e]);
    }
  }

  lemma SizeOfDifference(a: set<Uuid>, b: set<Uuid>)
    requires b <= a
    ensures |a - b| + |b| == |a|
  {
    assert a == (a - b) + b;
  }

  lemma FetchServesRivals(q: Queue, batch: seq<EventRecord>, e: Uuid, t: Time)
    requires RecordsOk(q) && Waiting(q, e, t) && Enabled(q, Fetch(batch)) && e !in Ids(batch)
    ensures
      var q' := Step(q, Fetch(batch));
      Waiting(q', e, t) && |RivalsLeft(q', e, t)| + FETCH_BATCH_SIZE == |RivalsLeft(q, e, t)|
  {
    BatchWithoutIsFullOfRivals(q, batch, e, t);
    var q' := Step(q, Fetch(batch));
    assert Ids(InHand(q)) == {};
    assert RivalsLeft(q, e, t) == Rivals(q, e, t);
    assert RivalsLeft(q', e, t) == Rivals(q, e, t) - Ids(batch);
    SizeOfDifference(Rivals(q, e, t), Ids(batch));
  }

  lemma MarkedEventIsNotDue(q: Queue, t: Time)
    requires q.stage.Answered? && Current(q, q.stage.record) && q.now > t
    ensures q.stage.record.id in Marked(q, false).events && !IsDue(Marked(q, false).events[q.stage.record.id], t)
  {
    MarkOfOne(q, false, q.stage.record.id);
    ScheduleGivesOut(q.stage.record.attempts + 1);
  }

  lemma MarkedLeave(q: Queue, e: Uuid, t: Time)
    requires q.stage.Answered? && Current(q, q.stage.record) && Waiting(q, e, t)
    ensures Waiting(Marked(q, false), e, t)
    ensures RivalsLeft(Marked(q, false), e, t) <= RivalsLeft(q, e, t)
  {
    var r, q' := q.stage.record, Marked(q, false);
    MarkedEventIsNotDue(q, t);
    MarkOfOne(q, false, r.id);
    assert InHand(q) == [r] + InHand(q');
    assert Ids(InHand(q)) == Ids(InHand(q')) + {r.id};
    MarkOfOne(q, false, e);
    forall id | id in RivalsLeft(q', e, t) ensures id in RivalsLeft(q, e, t) {
      MarkOfOne(q, false, id);
    }
  }

  lemma EnqueuedIsNotDue(q: Queue, id: Uuid, payload: PaymentCore.PaymentEvent, e: Uuid, t: Time)
    requires Waiting(q, e, t) && id !in q.events
    ensures
      var q' := Step(q, Enqueue(id, payload));
      Waiting(q', e, t) && RivalsLeft(q', e, t) <= RivalsLeft(q, e, t)
  {
  }

  /** What is enqueued meanwhile is due later than `t`, so nobody joins the rivals. */
  lemma NobodyJoins(q: Queue, move: Move, e: Uuid, t: Time)
    requires Inv(q) && Waiting(q, e, t) && Enabled(q, move) && !move.Fetch? && !move.Mark?
    ensures Waiting(Step(q, move), e, t)
    ensures RivalsLeft(Step(q, move), e, t) <= RivalsLeft(q, e, t)
  {
    match move
    case Enqueue(id, payload) => EnqueuedIsNotDue(q, id, payload, e, t);
    case Post(_) =>
      assert [q.stage.todo[0]] + q.stage.todo[1..] == q.stage.todo;
      assert InHand(Step(q, move)) == InHand(q);
    case Tick(_) =>
    case Rest =>
  }

  lemma SizeOfPart(a: set<Uuid>, b: set<Uuid>)
    requires a <= b
    ensures |a| <= |b|
  {
    SizeOfDifference(b, a);
  }

  /** The record whose mark is lost joins the rivals again, and nobody else does. */
  lemma LostMarkAddsOne(q: Queue, e: Uuid, t: Time)
    requires q.stage.Answered? && Current(q, q.stage.record) && Waiting(q, e, t)
    ensures Waiting(Marked(q, true), e, t)
    ensures |RivalsLeft(Marked(q, true), e, t)| <= |RivalsLeft(q, e, t)| + 1
  {
    var r, q' := q.stage.record, Marked(q, true);
    assert InHand(q) == [r] + InHand(q');
    assert Ids(InHand(q)) == Ids(InHand(q')) + {r.id};
    SizeOfPart(RivalsLeft(q', e, t), RivalsLeft(q, e, t) + {r.id});
  }

  /**
   * Passes still needed: those the rivals left, and those that lost marks will
   * bring back, can fill; the one that serves the event; and the one under way.
   */
  ghost function PassesNeeded(q: Queue, e: Uuid, t: Time, losses: nat): nat {
    (|RivalsLeft(q, e, t)| + losses) / FETCH_BATCH_SIZE + 1 + if q.stage.Resting? then 0 else 1
  }

  lemma FewerRivalsFewerPasses(a: nat, b: nat)
    requires a <= b
    ensures a / FETCH_BATCH_SIZE <= b / FETCH_BATCH_SIZE
  {
  }

  function IsLoss(move: Move): nat {
    if move == Mark(true) then 1 else 0
  }

  lemma MarkTowardsService(q: Queue, lost: bool, e: Uuid, t: Time)
    requires Inv(q) && Waiting(q, e, t) && q.stage.Answered?
    ensures Waiting(Marked(q, lost), e, t)
    ensures |RivalsLeft(Marked(q, lost), e, t)| <= |RivalsLeft(q, e, t)| + IsLoss(Mark(lost))
  {
    assert q.stage.record in InHand(q);
    assert Current(q, q.stage.record);
    if lost {
      LostMarkAddsOne(q, e, t);
    } else {
      MarkedLeave(q, e, t);
      SizeOfPart(RivalsLeft(Marked(q, false), e, t), RivalsLeft(q, e, t));
    }
  }

  /** A step that does not fetch the event brings it no further from being served, and a finished pass one nearer. */
  lemma StepTowardsService(q: Queue, move: Move, e: Uuid, t: Time, losses: nat)
    requires Inv(q) && Waiting(q, e, t) && Enabled(q, move)
    requires move.Fetch? ==> e !in Ids(move.batch)
    ensures Waiting(Step(q, move), e, t)
    ensures PassesNeeded(Step(q, move), e, t, losses) + (if move.Rest? then 1 else 0)
         <= PassesNeeded(q, e, t, losses + IsLoss(move))
  {
    match move
    case Fetch(batch) => FetchServesRivals(q, batch, e, t);
    case Mark(lost) =>
      MarkTowardsService(q, lost, e, t);
      FewerRivalsFewerPasses(|RivalsLeft(Step(q, move), e, t)| + losses,
                             |RivalsLeft(q, e, t)| + losses + IsLoss(move));
    case _ =>
      NobodyJoins(q, move, e, t);
      SizeOfPart(RivalsLeft(Step(q, move), e, t), RivalsLeft(q, e, t));
      FewerRivalsFewerPasses(|RivalsLeft(Step(q, move), e, t)| + losses, |RivalsLeft(q, e, t)| + losses);
  }

  /** Either the event is in the loop's hands now, or it waits on, no pass further away. */
  lemma ServedOrNearer(q: Queue, move: Move, e: Uuid, t: Time, losses: nat)
    requires Inv(q) && Waiting(q, e, t) && Enabled(q, move)
    ensures Inv(Step(q, move))
    ensures
      || (e in Ids(ToPost(Step(q, move))) && !move.Rest?)
      || (&& Waiting(Step(q, move), e, t)
          && PassesNeeded(Step(q, move), e, t, losses) + (if move.Rest? then 1 else 0)
             <= PassesNeeded(q, e, t, losses + IsLoss(move)))
  {
    StepKeepsInv(q, move);
    if !move.Fetch? || e !in Ids(move.batch) {
      StepTowardsService(q, move, e, t, losses);
    }
  }

  lemma {:induction false} EnoughPassesServe(q: Queue, moves: seq<Move>, e: Uuid, t: Time)
    requires Inv(q) && IsRun(q, moves) && Waiting(q, e, t)
    requires Passes(moves) >= PassesNeeded(q, e, t, Lost(moves))
    ensures PostsOf(After(q, moves), e) > PostsOf(q, e)
    decreases |moves|
  {
    var move, rest := moves[0], moves[1..];
    var q' := Step(q, move);
    assert Lost(moves) == Lost(rest) + IsLoss(move);
    StepPosts(q, move, e);
    ServedOrNearer(q, move, e, t, Lost(rest));
    if e in Ids(ToPost(q')) && !move.Rest? {
      HeldIsPosted(q', rest, e);
    } else {
      EnoughPassesServe(q', rest, e, t);
    }
  }

  /**
   * Fairness: take a moment between two passes at which an event has been due
   * since before that moment, together with r others. Whatever is enqueued
   * from then on, whatever the endpoint answers and however many marks are
   * lost, with l of them lost the event is posted within (r + l) / 50 + 1
   * passes.
   */
  lemma DueEventsAreServedDespiteLosses(q: Queue, moves: seq<Move>, e: Uuid, t: Time)
    requires Reachable(q) && q.stage.Resting? && IsRun(q, moves)
    requires e in q.events && IsDue(q.events[e], t) && t < q.now
    requires Passes(moves) >= (|Rivals(q, e, t)| + Lost(moves)) / 50 + 1
    ensures PostsOf(After(q, moves), e) > PostsOf(q, e)
  {
    ReachableInv(q);
    assert Ids(InHand(q)) == {};
    assert RivalsLeft(q, e, t) == Rivals(q, e, t);
    EnoughPassesServe(q, moves, e, t);
  }

  lemma {:induction false} NothingLostIsZero(moves: seq<Move>)
    requires NothingLost(moves)
    ensures Lost(moves) == 0
  {
    if moves != [] {
      assert forall i :: 0 <= i < |moves[1..]| ==> moves[1..][i] == moves[i + 1];
      NothingLostIsZero(moves[1..]);
    }
  }

  /** When marks succeed, within r / 50 + 1. */
  lemma DueEventsAreServed(q: Queue, moves: seq<Move>, e: Uuid, t: Time)
    requires Reachable(q) && q.stage.Resting? && IsRun(q, moves) && NothingLost(moves)
    requires e in q.events && IsDue(q.events[e], t) && t < q.now
    requires Passes(moves) >= |Rivals(q, e, t)| / 50 + 1
    ensures PostsOf(After(q, moves), e) > PostsOf(q, e)
  {
    NothingLostIsZero(moves);
    DueEventsAreServedDespiteLosses(q, moves, e, t);
  }
}
