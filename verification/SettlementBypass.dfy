/**
 * Why evidence and conservation speak of payments the workers moved: the
 * service's own transitions ask the ledger nothing.
 */
module SettlementBypass {
  import opened Wrappers
  import opened Collections
  import opened PaymentCore
  import opened PaymentTable
  import opened Settlement
  import opened SettlementSafety
  import opened SettlementEvidence
  import opened SettlementMoney
  import opened SettlementCreation
  import opened SettlementRace

  // === With calls the ledger bears out

  /**
   * When the ledger bore out every service call on a payment now Confirmed, as
   * it does where there are none, all Confirmed payments together are worth no
   * more than the ledger's payments that back one.
   */
  lemma AllConfirmedMoneyIsConserved(w: World, now: Time, moves: seq<Move>)
    requires IsRun(w, Initial(now), moves)
    requires forall id :: id in AllConfirmed(After(w, Initial(now), moves).shared) ==>
      CallsBornOut(w, Initial(now), moves, id)
    ensures
      var sh := After(w, Initial(now), moves).shared;
      SumOver(AllConfirmed(sh), StoredAmount(sh)) <= SumOver(BackingPayments(w, sh), WorthAt(sh.ledger))
  {
    BornOutMoneyIsConserved(w, now, moves, AllConfirmed(After(w, Initial(now), moves).shared));
  }

  lemma CommitTouches(w: World, s: State, move: Move, id: Uuid)
    requires Enabled(w, s, move) && Unfounded(w, s, move, id)
    ensures Touched(Step(w, s, move).shared.log, id)
  {
    var log := Step(w, s, move).shared.log;
    assert log[|log| - 1] in log;
  }

  lemma LogGrows(w: World, s: State, move: Move)
    requires Enabled(w, s, move)
    ensures s.shared.log <= Step(w, s, move).shared.log
  {
  }

  lemma {:induction false} TouchedStays(w: World, s: State, moves: seq<Move>, id: Uuid)
    requires IsRun(w, s, moves) && Touched(s.shared.log, id)
    ensures Touched(After(w, s, moves).shared.log, id)
    decreases |moves|
  {
    if moves != [] {
      var next := Step(w, s, moves[0]);
      LogGrows(w, s, moves[0]);
      assert forall e :: e in s.shared.log ==> e in next.shared.log;
      TouchedStays(w, next, moves[1..], id);
    }
  }

  /** Payments no service call touched need no call borne out. */
  lemma {:induction false} UntouchedCallsAreBornOut(w: World, s: State, moves: seq<Move>, id: Uuid)
    requires Inv(w, s) && IsRun(w, s, moves) && !Touched(After(w, s, moves).shared.log, id)
    ensures CallsBornOut(w, s, moves, id)
    decreases |moves|
  {
    if moves != [] {
      var next := Step(w, s, moves[0]);
      StepOk(w, s, moves[0]);
      UntouchedCallsAreBornOut(w, next, moves[1..], id);
      if Unfounded(w, s, moves[0], id) {
        CommitTouches(w, s, moves[0], id);
        TouchedStays(w, next, moves[1..], id);
        assert false;
      }
    }
  }

  // === Without

  /** The one payment, nothing on the ledger. */
  ghost predicate Unpaid(s: State, row: Row) {
    && Reachable(TheWorld(), s)
    && s.shared.now == 0
    && s.shared.table == Table(map[1 := row], map[])
    && s.shared.ledger == []
  }

  lemma CreateUnpaid() returns (s: State)
    ensures Unpaid(s, StoredRow()) && s.actors.Keys == {0}
  {
    TenIsAnAmount();
    s := PaymentIsRequested();
    assert Insertable(EMPTY, ThePayment(), None);
    InsertOutcome(s.shared, ThePayment(), None);
    s := Go(s, 0, Insert(Replied));
  }

  lemma ServiceMoves(s0: State, row: Row, a: nat, next: PaymentStatus, hash: Option<string>) returns (s: State)
    requires Unpaid(s0, row) && row.id == 1 && a !in s0.actors
    requires CanTransition(row.status, next) && HashGivenIffDetected(next, hash)
    ensures Unpaid(s, PaymentTable.Moved(row, next, hash, 0)) && s.actors.Keys == s0.actors.Keys + {a}
  {
    s := Go(s0, a, StartTransition(1, next, hash));
    OnlyRowMoves(row, next, hash);
    s := Go(s, a, Commit(Replied));
  }

  /** Two service calls confirm a payment that the ledger never saw: more is confirmed than was paid. */
  lemma ServiceMayConfirmUnpaid() returns (w: World, s: State)
    ensures Reachable(w, s) && s.shared.ledger == []
    ensures SumOver(AllConfirmed(s.shared), StoredAmount(s.shared))
          > SumOver(BackingPayments(w, s.shared), WorthAt(s.shared.ledger))
  {
    w := TheWorld();
    s := CreateUnpaid();
    s := ServiceMoves(s, StoredRow(), 1, Detected, Some("tx"));
    s := ServiceMoves(s, DetectedRow(), 2, Confirmed, None);
    var confirmed := AllConfirmed(s.shared);
    assert 1 in confirmed && confirmed - {1} == {};
    SumTakeOut(confirmed, StoredAmount(s.shared), 1);
    assert BackingPayments(w, s.shared) == {};
  }
}
