/** Lifecycles over whole runs: paths, bounds, expiry, and the branch never taken. */
module SettlementLifecycle {
  import opened Collections
  import opened PaymentCore
  import opened PaymentTable
  import opened Settlement
  import opened SettlementSafety

  // === Paths are short

  lemma PathStep(trail: seq<PaymentStatus>, i: nat)
    requires IsPath(trail) && i < |trail|
    ensures CanTransition(if i == 0 then Pending else trail[i - 1], trail[i])
  {
    assert CanTransition(EndOf(trail[..i]), trail[i]);
  }

  /** A path visits at most two statuses after Pending, never one twice, and stops at a terminal one. */
  lemma PathShape(trail: seq<PaymentStatus>)
    requires IsPath(trail)
    ensures |trail| <= 2
    ensures |trail| == 2 ==> trail[0].Detected? && (trail[1].Confirmed? || trail[1].Failed?)
    ensures |trail| == 1 ==> trail[0].Detected? || trail[0].Expired?
  {
    if |trail| >= 1 {
      PathStep(trail, 0);
    }
    if |trail| >= 2 {
      PathStep(trail, 1);
    }
    if |trail| >= 3 {
      PathStep(trail, 2);
    }
  }

  function EntriesOf(id: Uuid): Entry -> bool {
    (e: Entry) => e.id == id
  }

  function EntriesOfAny(ids: set<Uuid>): Entry -> bool {
    (e: Entry) => e.id in ids
  }

  function ReachedBy(id: Uuid, to: PaymentStatus): Entry -> bool {
    (e: Entry) => e.id == id && e.to == to
  }

  function IsStatus(to: PaymentStatus): PaymentStatus -> bool {
    (status: PaymentStatus) => status == to
  }

  lemma {:induction false} TrailCounts(log: seq<Entry>, id: Uuid, to: PaymentStatus)
    ensures Count(log, EntriesOf(id)) == |Trail(log, id)|
    ensures Count(log, ReachedBy(id, to)) == Count(Trail(log, id), IsStatus(to))
  {
    if log != [] {
      var init, last := log[..|log| - 1], log[|log| - 1];
      assert log == init + [last];
      TrailCounts(init, id, to);
      CountConcat(init, [last], EntriesOf(id));
      CountConcat(init, [last], ReachedBy(id, to));
      FilterOne(last, EntriesOf(id));
      FilterOne(last, ReachedBy(id, to));
      CountConcat(Trail(init, id), [last.to], IsStatus(to));
      FilterOne(last.to, IsStatus(to));
      assert Trail(init, id) + [] == Trail(init, id);
    }
  }

  lemma ShortCounts(trail: seq<PaymentStatus>, to: PaymentStatus)
    requires IsPath(trail)
    ensures Count(trail, IsStatus(to)) <= 1
  {
    PathShape(trail);
    if |trail| == 1 {
      assert trail == [trail[0]];
      FilterOne(trail[0], IsStatus(to));
    } else if |trail| == 2 {
      assert trail == [trail[0]] + [trail[1]];
      CountConcat([trail[0]], [trail[1]], IsStatus(to));
      FilterOne(trail[0], IsStatus(to));
      FilterOne(trail[1], IsStatus(to));
    }
  }

  /**
   * In every reachable state the updates a payment went through form a path
   * of the transition relation from Pending to its present status: at most
   * two of them, and none to the same status twice.
   */
  lemma HistoriesArePaths(w: World, s: State, id: Uuid, to: PaymentStatus)
    requires Reachable(w, s) && id in s.shared.table.rows
    ensures IsPath(Trail(s.shared.log, id)) && EndOf(Trail(s.shared.log, id)) == s.shared.table.rows[id].status
    ensures Count(s.shared.log, EntriesOf(id)) <= 2
    ensures Count(s.shared.log, ReachedBy(id, to)) <= 1
  {
    ReachableOk(w, s);
    TrailCounts(s.shared.log, id, to);
    PathShape(Trail(s.shared.log, id));
    ShortCounts(Trail(s.shared.log, id), to);
  }

  // === Updates are bounded by payments

  lemma {:induction false} CountSplits(log: seq<Entry>, ids: set<Uuid>, id: Uuid)
    requires id in ids
    ensures Count(log, EntriesOfAny(ids)) == Count(log, EntriesOfAny(ids - {id})) + Count(log, EntriesOf(id))
  {
    if log != [] {
      CountSplits(log[1..], ids, id);
    }
  }

  lemma {:induction false} CountNone(log: seq<Entry>)
    ensures Count(log, EntriesOfAny({})) == 0
  {
    if log != [] {
      CountNone(log[1..]);
    }
  }

  lemma {:induction false} CountWithin(log: seq<Entry>, ids: set<Uuid>)
    requires forall id :: id in ids ==> Count(log, EntriesOf(id)) <= 2
    ensures Count(log, EntriesOfAny(ids)) <= 2 * |ids|
  {
    if ids == {} {
      CountNone(log);
    } else {
      var id :| id in ids;
      CountSplits(log, ids, id);
      CountWithin(log, ids - {id});
    }
  }

  lemma {:induction false} CountAll(log: seq<Entry>, ids: set<Uuid>)
    requires forall e :: e in log ==> e.id in ids
    ensures Count(log, EntriesOfAny(ids)) == |log|
  {
    if log != [] {
      assert log[0] in log;
      CountAll(log[1..], ids);
    }
  }

  /** However many actors race and however stale their reads: at most two updates per payment ever take effect. */
  lemma UpdatesAtMostTwicePayments(w: World, s: State)
    requires Reachable(w, s)
    ensures |s.shared.log| <= 2 * |s.shared.table.rows|
  {
    ReachableOk(w, s);
    var ids := s.shared.table.rows.Keys;
    forall id | id in ids ensures Count(s.shared.log, EntriesOf(id)) <= 2 {
      HistoriesArePaths(w, s, id, Pending);
    }
    CountWithin(s.shared.log, ids);
    CountAll(s.shared.log, ids);
  }

  // === Expiry and coherence

  /** A payment expired by a worker was at least the expiry window old when it was. */
  lemma WorkersExpireOnlyOldPayments(w: World, s: State, e: Entry)
    requires Reachable(w, s) && e in s.shared.log && e.byWorker && e.to.Expired?
    ensures e.id in s.shared.table.rows
    ensures e.at - s.shared.table.rows[e.id].createdAt
         >= if w.expiryWindow <= 9_223_372_036_854_775_807_000 then w.expiryWindow else 0
  {
    ReachableOk(w, s);
    assert OldEnough(w, s.shared.table, e);
    ReachesWindow(w.expiryWindow, e.at - s.shared.table.rows[e.id].createdAt);
  }

  /** Through service and workers alike: a hash is stored exactly for Detected, Confirmed and Failed. */
  lemma HashIffSeenOnLedger(w: World, s: State, id: Uuid)
    requires Reachable(w, s) && id in s.shared.table.rows
    ensures
      var row := s.shared.table.rows[id];
      row.txHash.Some? <==> row.status.Detected? || row.status.Confirmed? || row.status.Failed?
  {
    ReachableOk(w, s);
    assert HashMatchesStatus(s.shared.table.rows[id]);
  }

  /**
   * So a worker that takes up a Detected payment always goes on to verify it:
   * the branch for a missing hash is never taken.
   */
  lemma MissingHashBranchIsDead(w: World, s: State, actor: nat)
    requires Reachable(w, s) && Enabled(w, s, By(actor, Take))
    requires PhaseOf(s, actor).todo[0].status.Detected?
    ensures
      var p := PhaseOf(s, actor).todo[0];
      && p.txHash.Some?
      && PhaseOf(Step(w, s, By(actor, Take)), actor) == Verifying(p, p.txHash.value, PhaseOf(s, actor).todo[1..])
  {
    ReachableOk(w, s);
    assert PhaseOf(s, actor).todo[0] in PhaseOf(s, actor).todo;
  }
}
