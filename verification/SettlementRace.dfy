/**
 * Why the order of events is promised for a single worker only: two workers
 * may enqueue a payment's confirmation before its detection.
 */
module SettlementRace {
  import opened Wrappers
  import opened Amounts
  import opened PaymentCore
  import opened PaymentTable
  import opened Horizon
  import opened Settlement
  import opened SettlementSafety
  import opened SettlementCreation
  import SettlementLifecycle

  /** One successful transaction "tx" that carries the memo. */
  function TheWorld(): World {
    World((hash: string) => if hash == "tx" then Some("memo") else None, (hash: string) => true, 3600 * SECOND)
  }

  function ThePayment(): Payment {
    NewPayment(1, "10", "order-1", "shop", Some("memo"), 0)
  }

  function StoredRow(): Row {
    ToRow(ThePayment(), 100_000_000)
  }

  function DetectedRow(): Row {
    PaymentTable.Moved(StoredRow(), Detected, Some("tx"), 0)
  }

  function ConfirmedRow(): Row {
    PaymentTable.Moved(DetectedRow(), Confirmed, None, 0)
  }

  /** The one row of the story, the one ledger record, the events so far. */
  ghost predicate Scene(s: State, row: Row, told: seq<Emission>) {
    && Reachable(TheWorld(), s)
    && s.shared.now == 0
    && s.shared.table == Table(map[1 := row], map[])
    && s.shared.ledger == [Paid(0)]
    && s.shared.emissions == told
  }

  lemma Go(s: State, actor: nat, action: Action) returns (s': State)
    requires Reachable(TheWorld(), s) && Can(TheWorld(), s.shared, PhaseOf(s, actor), action)
    ensures Reachable(TheWorld(), s')
    ensures
      var (shared, phase) := Act(TheWorld(), s.shared, PhaseOf(s, actor), action);
      s' == State(shared, s.actors[actor := phase])
  {
    RunsReach(TheWorld(), s, By(actor, action));
    s' := Step(TheWorld(), s, By(actor, action));
  }

  lemma PaymentIsRequested() returns (s: State)
    ensures Reachable(TheWorld(), s) && s == State(Initial(0).shared, map[0 := Inserting(ThePayment(), None)])
  {
    TenIsAnAmount();
    InitialIsReachable(TheWorld(), 0);
    s := Go(Initial(0), 0, StartCreate(ThePayment(), None));
    s := Go(s, 0, FindKey(false));
  }

  lemma CreateThePayment() returns (s: State)
    ensures Scene(s, StoredRow(), []) && s.actors.Keys == {0} && s.actors[0] == Done
  {
    TenIsAnAmount();
    s := PaymentIsRequested();
    assert Insertable(EMPTY, ThePayment(), None);
    InsertOutcome(s.shared, ThePayment(), None);
    s := Go(s, 0, Insert(Replied));
    RunsReach(TheWorld(), s, Append(Paid(0)));
    s := Step(TheWorld(), s, Append(Paid(0)));
  }

  // === One worker's steps

  lemma OnlyPaymentIsListed(row: Row)
    requires row.id == 1 && IsActive(row.status)
    ensures IsPendingList(Table(map[1 := row], map[]), [FromRow(row)])
  {
  }

  lemma Starts(s0: State, row: Row, told: seq<Emission>, a: nat) returns (s: State)
    requires Scene(s0, row, told) && a !in s0.actors
    ensures Scene(s, row, told) && s.actors == s0.actors[a := Idle]
  {
    s := Go(s0, a, StartWorker);
  }

  lemma Lists(s0: State, row: Row, told: seq<Emission>, a: nat) returns (s: State)
    requires Scene(s0, row, told) && PhaseOf(s0, a) == Idle && row.id == 1 && IsActive(row.status)
    ensures Scene(s, row, told) && s.actors == s0.actors[a := Reviewing([FromRow(row)])]
  {
    OnlyPaymentIsListed(row);
    s := Go(s0, a, List([FromRow(row)]));
  }

  lemma Takes(s0: State, row: Row, told: seq<Emission>, a: nat, p: Payment) returns (s: State)
    requires Scene(s0, row, told) && PhaseOf(s0, a) == Reviewing([p])
    ensures Scene(s, row, told) && s.actors == s0.actors[a := Judge(Expiry(TheWorld()), 0, p, [])]
  {
    assert [p][0] == p && [p][1..] == [];
    s := Go(s0, a, Take);
  }

  lemma JudgedPending(p: Payment)
    requires p.status.Pending? && p.memo == Some("memo") && p.createdAt == 0
    ensures Judge(Expiry(TheWorld()), 0, p, []) == Searching(p, "memo", [])
  {
  }

  lemma JudgedDetected(p: Payment)
    requires p.status.Detected? && p.txHash == Some("tx")
    ensures Judge(Expiry(TheWorld()), 0, p, []) == Verifying(p, "tx", [])
  {
  }

  lemma PageOfOne()
    ensures Horizon.PageOf([Paid(0)], "shop") == [Paid(0)]
    ensures Scan([Paid(0)], Query("shop", "memo", 0), Lookup(TheWorld(), {})) == Ok(Some(Found(Paid(0), Some("memo"))))
  {
    assert [Paid(0)][..0] == [];
    assert Feed([], "shop") == [];
  }

  lemma AmountIsMatched()
    ensures AmountsMatch(FromRow(StoredRow()).amount, "10")
  {
    TenIsAnAmount();
    StorageRoundTrip("10");
  }

  lemma Searches(s0: State, told: seq<Emission>, a: nat) returns (s: State)
    requires Scene(s0, StoredRow(), told) && PhaseOf(s0, a) == Searching(FromRow(StoredRow()), "memo", [])
    ensures Scene(s, StoredRow(), told)
    ensures s.actors == s0.actors[a := Updating(FromRow(StoredRow()), Detected, Some("tx"), [])]
  {
    PageOfOne();
    AmountIsMatched();
    s := Go(s0, a, Search(false, {}));
  }

  /** With a single row no hash can clash. */
  lemma OnlyRowMoves(row: Row, next: PaymentStatus, hash: Option<string>)
    requires CanTransition(row.status, next)
    ensures
      var moved := PaymentTable.Moved(row, next, hash, 0);
      UpdateStatus(Table(map[1 := row], map[]), 1, next, hash, 0)
        == (Table(map[1 := moved], map[]), Ok(FromRow(moved)))
  {
    var moved := PaymentTable.Moved(row, next, hash, 0);
    assert map[1 := row][1 := moved] == map[1 := moved];
  }

  lemma Updates(s0: State, row: Row, told: seq<Emission>, a: nat, next: PaymentStatus, hash: Option<string>)
    returns (s: State)
    requires Scene(s0, row, told) && row.id == 1 && CanTransition(row.status, next)
    requires PhaseOf(s0, a) == Updating(FromRow(row), next, hash, [])
    ensures
      var moved := PaymentTable.Moved(row, next, hash, 0);
      Scene(s, moved, told) && s.actors == s0.actors[a := Emitting(EventFor(next, FromRow(moved)), [])]
  {
    OnlyRowMoves(row, next, hash);
    s := Go(s0, a, Update(Replied));
  }

  lemma Emits(s0: State, row: Row, told: seq<Emission>, a: nat, event: PaymentEvent) returns (s: State)
    requires Scene(s0, row, told) && PhaseOf(s0, a) == Emitting(event, [])
    ensures Scene(s, row, told + [Emission(event, true, 0)]) && s.actors == s0.actors[a := Reviewing([])]
    ensures s.shared.log == s0.shared.log
  {
    s := Go(s0, a, Emit(true));
  }

  // === One payment's turns

  lemma Detects(s0: State, told: seq<Emission>, a: nat) returns (s: State)
    requires Scene(s0, StoredRow(), told) && PhaseOf(s0, a) == Idle
    ensures Scene(s, DetectedRow(), told)
    ensures s.actors == s0.actors[a := Emitting(PaymentDetected(FromRow(DetectedRow())), [])]
  {
    s := Lists(s0, StoredRow(), told, a);
    s := Takes(s, StoredRow(), told, a, FromRow(StoredRow()));
    JudgedPending(FromRow(StoredRow()));
    s := Searches(s, told, a);
    s := Updates(s, StoredRow(), told, a, Detected, Some("tx"));
  }

  lemma Confirms(s0: State, told: seq<Emission>, a: nat) returns (s: State)
    requires Scene(s0, DetectedRow(), told) && PhaseOf(s0, a) == Idle
    ensures Scene(s, ConfirmedRow(), told)
    ensures s.actors == s0.actors[a := Emitting(PaymentConfirmed(FromRow(ConfirmedRow())), [])]
  {
    s := Lists(s0, DetectedRow(), told, a);
    s := Takes(s, DetectedRow(), told, a, FromRow(DetectedRow()));
    JudgedDetected(FromRow(DetectedRow()));
    s := Go(s, a, Verify(false));
    s := Updates(s, DetectedRow(), told, a, Confirmed, None);
  }

  // === The story

  /** Both updates are done, neither event is enqueued. */
  lemma BothAboutToEmit() returns (s: State)
    ensures Scene(s, ConfirmedRow(), [])
    ensures PhaseOf(s, 1) == Emitting(PaymentDetected(FromRow(DetectedRow())), [])
    ensures PhaseOf(s, 2) == Emitting(PaymentConfirmed(FromRow(ConfirmedRow())), [])
  {
    s := CreateThePayment();
    s := Starts(s, StoredRow(), [], 1);
    s := Detects(s, [], 1);
    s := Starts(s, DetectedRow(), [], 2);
    s := Confirms(s, [], 2);
  }

  lemma ConfirmedCameThroughDetected(w: World, s: State)
    requires Reachable(w, s) && 1 in s.shared.table.rows && s.shared.table.rows[1].status.Confirmed?
    ensures Trail(s.shared.log, 1) == [Detected, Confirmed]
  {
    ReachableOk(w, s);
    SettlementLifecycle.PathShape(Trail(s.shared.log, 1));
  }

  /** With two workers a reachable outbox tells of the confirmation before the detection. */
  lemma TwoWorkersMayReverseEvents() returns (w: World, s: State)
    ensures Reachable(w, s)
    ensures |s.shared.emissions| == 2
    ensures forall m :: m in s.shared.emissions ==> m.enqueued && m.event.payment.id == 1
    ensures s.shared.emissions[0].event.PaymentConfirmed? && s.shared.emissions[1].event.PaymentDetected?
    ensures Trail(s.shared.log, 1) == [Detected, Confirmed]
  {
    w := TheWorld();
    s := BothAboutToEmit();
    ConfirmedCameThroughDetected(w, s);
    var detected, confirmed := PaymentDetected(FromRow(DetectedRow())), PaymentConfirmed(FromRow(ConfirmedRow()));
    s := Emits(s, ConfirmedRow(), [], 2, confirmed);
    s := Emits(s, ConfirmedRow(), [Emission(confirmed, true, 0)], 1, detected);
  }
}
