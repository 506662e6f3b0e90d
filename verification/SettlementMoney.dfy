/** Money: every confirmed payment stands for its own payment on the ledger. */
module SettlementMoney {
  import opened Wrappers
  import opened Collections
  import opened Decimals
  import opened Amounts
  import opened PaymentCore
  import opened PaymentTable
  import opened Horizon
  import opened Settlement
  import opened SettlementSafety
  import opened SettlementEvidence

  // === Evidence

  /**
   * A payment moved only by workers is Confirmed only when the transaction
   * with its stored hash succeeded, and Failed only when it did not; and in
   * either case, as already when it was Detected, the ledger holds a payment
   * in that transaction to its destination, under its memo, of equal amount,
   * not older than itself.
   */
  lemma SettledPaymentsHaveEvidence(w: World, s: State, id: Uuid)
    requires Reachable(w, s) && id in s.shared.table.rows && !Touched(s.shared.log, id)
    ensures
      var row := s.shared.table.rows[id];
      && (row.status.Confirmed? ==> row.txHash.Some? && w.successful(row.txHash.value))
      && (row.status.Failed? ==> row.txHash.Some? && !w.successful(row.txHash.value))
      && (row.status.Confirmed? || row.status.Failed? || row.status.Detected? ==>
            row.txHash.Some? && Backed(w, s.shared.ledger, FromRow(row), row.txHash.value))
  {
    ReachableOk(w, s);
    assert HashMatchesStatus(s.shared.table.rows[id]);
    assert RowBacked(w, s.shared.ledger, s.shared.table.rows[id]);
  }

  /** From any reachable state on, a stored hash stays, and a settled or expired row stays as it is. */
  lemma HashesAndEndsAreFinal(w: World, s: State, moves: seq<Move>, id: Uuid)
    requires Reachable(w, s) && IsRun(w, s, moves) && id in s.shared.table.rows
    ensures
      var row := s.shared.table.rows[id];
      var rows' := After(w, s, moves).shared.table.rows;
      && id in rows'
      && (row.txHash.Some? ==> rows'[id].txHash == row.txHash)
      && (IsTerminal(row.status) ==> rows'[id] == row)
      && FromRow(rows'[id]).amount == FromRow(row).amount
  {
    ReachableOk(w, s);
    RunOk(w, s, moves);
    assert HashMatchesStatus(s.shared.table.rows[id]);
    assert RowLater(s.shared.table.rows[id], After(w, s, moves).shared.table.rows[id]);
  }

  // === What a record is worth

  /** What a ledger record is worth, in 10^-7 units; nothing if its amount does not parse. */
  function RecordValue(r: LedgerRecord): nat {
    match FromStr(OrEmpty(r.amount))
    case None => 0
    case Some(d) =>
      if d.mantissa < 0 then 0 else Quotient(d.mantissa * Pow10(FRACTION_DIGITS), Pow10(d.scale))
  }

  lemma AtMostMinusFactor(x: int, p: int)
    requires x <= -1 && p > 0
    ensures x * p <= -p
  {
  }

  lemma AtLeastFactor(x: int, p: int)
    requires x >= 1 && p > 0
    ensures x * p >= p
  {
  }

  lemma QuotientOfProduct(n: nat, p: nat)
    requires p > 0
    ensures Quotient(n * p, p) == n
  {
    var q, r := Quotient(n * p, p), Remainder(n * p, p);
    assert (n - q) * p == r;
    if n - q >= 1 {
      AtLeastFactor(n - q, p);
    } else if n - q <= -1 {
      AtMostMinusFactor(n - q, p);
    }
  }

  lemma MatchedRecordIsWorthTheAmount(units: int, r: LedgerRecord)
    requires units > 0 && FitsColumn(units) && AmountsMatch(Load(units), OrEmpty(r.amount))
    ensures RecordValue(r) == units
  {
    var d := FromStr(OrEmpty(r.amount)).value;
    LoadedText(units);
    EqualTransitive(Decimal(units, FRACTION_DIGITS), FromStr(Load(units)).value, d);
    QuotientOfProduct(units, Pow10(d.scale));
    SignOfProduct(units, Pow10(d.scale));
    SignOfProduct(d.mantissa, Pow10(FRACTION_DIGITS));
  }

  /** This ledger position holds, in a successful transaction, a payment that backs the stored payment. */
  predicate PaysFor(w: World, sh: Shared, i: nat, id: Uuid) {
    && i < |sh.ledger| && id in sh.table.rows
    && sh.table.rows[id].txHash == Some(sh.ledger[i].transactionHash)
    && w.successful(sh.ledger[i].transactionHash)
    && Backs(w, sh.ledger[i], FromRow(sh.table.rows[id]), sh.ledger[i].transactionHash)
  }

  ghost predicate IsPaid(w: World, sh: Shared, id: Uuid) {
    exists i :: PaysFor(w, sh, i, id)
  }

  ghost predicate PaysForSome(w: World, sh: Shared, i: nat) {
    exists id :: PaysFor(w, sh, i, id)
  }

  ghost function AllConfirmed(sh: Shared): set<Uuid> {
    set id | id in sh.table.rows && sh.table.rows[id].status.Confirmed?
  }

  /** Payments confirmed by workers alone. */
  ghost function ConfirmedByWorkers(sh: Shared): set<Uuid> {
    set id | id in AllConfirmed(sh) && !Touched(sh.log, id)
  }

  /** Positions of the ledger's payments, in successful transactions, that back a stored payment. */
  ghost function BackingPayments(w: World, sh: Shared): set<nat> {
    set i: nat | i < |sh.ledger| && PaysForSome(w, sh, i)
  }

  ghost function StoredAmount(sh: Shared): Uuid -> int {
    (id: Uuid) => if id in sh.table.rows then sh.table.rows[id].amount else 0
  }

  ghost function WorthAt(ledger: seq<LedgerRecord>): nat -> int {
    (i: nat) => if i < |ledger| then RecordValue(ledger[i]) else 0
  }

  lemma BackedIsPaid(w: World, sh: Shared, id: Uuid)
    requires id in AllConfirmed(sh) && HashMatchesStatus(sh.table.rows[id])
    requires RowBacked(w, sh.ledger, sh.table.rows[id])
    ensures IsPaid(w, sh, id)
  {
    var row := sh.table.rows[id];
    var r :| r in sh.ledger && Backs(w, r, FromRow(row), row.txHash.value);
    var i: nat :| i < |sh.ledger| && sh.ledger[i] == r;
    assert PaysFor(w, sh, i, id);
  }

  lemma PaidIsBacked(w: World, sh: Shared, i: nat, id: Uuid)
    requires id in AllConfirmed(sh) && PaysFor(w, sh, i, id)
    ensures RowBacked(w, sh.ledger, sh.table.rows[id])
  {
    assert sh.ledger[i] in sh.ledger;
  }

  /** For a Confirmed payment, being borne out and being paid are the same. */
  lemma ConfirmedIsBackedIffPaid(w: World, sh: Shared, id: Uuid)
    requires TableOk(sh.table) && id in AllConfirmed(sh)
    ensures RowBacked(w, sh.ledger, sh.table.rows[id]) <==> IsPaid(w, sh, id)
  {
    assert HashMatchesStatus(sh.table.rows[id]);
    if IsPaid(w, sh, id) {
      var i :| PaysFor(w, sh, i, id);
      PaidIsBacked(w, sh, i, id);
    } else if RowBacked(w, sh.ledger, sh.table.rows[id]) {
      BackedIsPaid(w, sh, id);
    }
  }

  lemma PaidWithWhatItIsWorth(w: World, sh: Shared, i: nat, id: Uuid)
    requires TableOk(sh.table) && PaysFor(w, sh, i, id)
    ensures WorthAt(sh.ledger)(i) == StoredAmount(sh)(id) > 0
  {
    MatchedRecordIsWorthTheAmount(sh.table.rows[id].amount, sh.ledger[i]);
  }

  lemma PaysForOneOnly(w: World, sh: Shared, i: nat, a: Uuid, b: Uuid)
    requires UniqueHashes(sh.table) && PaysFor(w, sh, i, a) && PaysFor(w, sh, i, b)
    ensures a == b
  {
  }

  // === One record each

  /** One record for each payment that has some. */
  ghost function RecordFor(w: World, sh: Shared, id: Uuid): (i: nat)
    requires IsPaid(w, sh, id)
    ensures PaysFor(w, sh, i, id)
  {
    var i: nat :| PaysFor(w, sh, i, id);
    i
  }

  ghost function Chosen(w: World, sh: Shared, paid: set<Uuid>): map<Uuid, nat>
    requires forall id :: id in paid ==> IsPaid(w, sh, id)
  {
    map id | id in paid :: RecordFor(w, sh, id)
  }

  lemma ChosenAreDistinct(w: World, sh: Shared, paid: set<Uuid>)
    requires UniqueHashes(sh.table) && forall id :: id in paid ==> IsPaid(w, sh, id)
    ensures forall a, b :: a in paid && b in paid && a != b ==> Chosen(w, sh, paid)[a] != Chosen(w, sh, paid)[b]
  {
    var chosen := Chosen(w, sh, paid);
    forall a, b | a in paid && b in paid && chosen[a] == chosen[b] ensures a == b {
      PaysForOneOnly(w, sh, chosen[a], a, b);
    }
  }

  /** Payments each paid by the ledger are worth no more together than the ledger's payments that back any. */
  lemma PaidIsBounded(w: World, sh: Shared, paid: set<Uuid>)
    requires TableOk(sh.table) && forall id :: id in paid ==> IsPaid(w, sh, id)
    ensures SumOver(paid, StoredAmount(sh)) <= SumOver(BackingPayments(w, sh), WorthAt(sh.ledger))
  {
    var chosen := Chosen(w, sh, paid);
    ChosenAreDistinct(w, sh, paid);
    forall id | id in paid
      ensures chosen[id] in BackingPayments(w, sh) && StoredAmount(sh)(id) == WorthAt(sh.ledger)(chosen[id])
    {
      assert PaysFor(w, sh, chosen[id], id);
      PaidWithWhatItIsWorth(w, sh, chosen[id], id);
    }
    SumThroughInjection(paid, BackingPayments(w, sh), StoredAmount(sh), WorthAt(sh.ledger), chosen);
  }

  // === Conservation

  /**
   * Conservation of money: in every reachable state the payments the workers
   * confirmed are worth no more, in total, than the ledger's payments, each
   * counted once, that went in a successful transaction to a stored payment's
   * destination, under its memo and with its amount.
   */
  lemma MoneyIsConserved(w: World, s: State)
    requires Reachable(w, s)
    ensures SumOver(ConfirmedByWorkers(s.shared), StoredAmount(s.shared))
         <= SumOver(BackingPayments(w, s.shared), WorthAt(s.shared.ledger))
  {
    ReachableOk(w, s);
    forall id | id in ConfirmedByWorkers(s.shared) ensures IsPaid(w, s.shared, id) {
      assert RowBacked(w, s.shared.ledger, s.shared.table.rows[id]);
      ConfirmedIsBackedIffPaid(w, s.shared, id);
    }
    PaidIsBounded(w, s.shared, ConfirmedByWorkers(s.shared));
  }

  /**
   * With service calls as well: at the end of any run, the Confirmed payments
   * whose calls the ledger bore out are covered in the same way.
   */
  lemma BornOutMoneyIsConserved(w: World, now: Time, moves: seq<Move>, confirmed: set<Uuid>)
    requires IsRun(w, Initial(now), moves)
    requires confirmed <= AllConfirmed(After(w, Initial(now), moves).shared)
    requires forall id :: id in confirmed ==> CallsBornOut(w, Initial(now), moves, id)
    ensures
      var sh := After(w, Initial(now), moves).shared;
      SumOver(confirmed, StoredAmount(sh)) <= SumOver(BackingPayments(w, sh), WorthAt(sh.ledger))
  {
    var sh := After(w, Initial(now), moves).shared;
    RunOk(w, Initial(now), moves);
    forall id | id in confirmed ensures IsPaid(w, sh, id) {
      EvidenceIffCallsBornOut(w, now, moves, id);
      EvidenceAtTheEnd(w, Initial(now), moves, id);
      ConfirmedIsBackedIffPaid(w, sh, id);
    }
    PaidIsBounded(w, sh, confirmed);
  }

  // === Exactly when all that is confirmed was paid

  ghost function PaidConfirmed(w: World, sh: Shared): set<Uuid> {
    set id | id in AllConfirmed(sh) && IsPaid(w, sh, id)
  }

  /** One ledger record for each Confirmed payment that has some. */
  ghost function OwnRecords(w: World, sh: Shared): set<nat> {
    set id | id in PaidConfirmed(w, sh) :: RecordFor(w, sh, id)
  }

  lemma OwnRecordsAreWorthThePaid(w: World, sh: Shared)
    requires TableOk(sh.table)
    ensures SumOver(PaidConfirmed(w, sh), StoredAmount(sh)) == SumOver(OwnRecords(w, sh), WorthAt(sh.ledger))
  {
    var paid := PaidConfirmed(w, sh);
    var chosen := Chosen(w, sh, paid);
    ChosenAreDistinct(w, sh, paid);
    forall id | id in paid
      ensures chosen[id] in OwnRecords(w, sh) && StoredAmount(sh)(id) == WorthAt(sh.ledger)(chosen[id])
    {
      PaidWithWhatItIsWorth(w, sh, chosen[id], id);
    }
    forall i | i in OwnRecords(w, sh) ensures exists id :: id in paid && id in chosen && chosen[id] == i {
      var id :| id in paid && RecordFor(w, sh, id) == i;
      assert id in chosen && chosen[id] == i;
    }
    SumOfImage(paid, OwnRecords(w, sh), StoredAmount(sh), WorthAt(sh.ledger), chosen);
  }

  /** A part of positive amounts is the whole exactly when the whole is worth no more. */
  lemma PartIsWholeIffNoLess(whole: set<Uuid>, part: set<Uuid>, f: Uuid -> int)
    requires part <= whole && forall id :: id in whole ==> f(id) > 0
    ensures SumOver(whole, f) <= SumOver(part, f) <==> whole == part
  {
    SumSplits(whole, part, f);
    if whole != part {
      var id :| id in whole && id !in part;
      assert id in whole - part;
      SumPositive(whole - part, f);
    }
  }

  lemma AllPaidIffAllBacked(w: World, sh: Shared)
    requires TableOk(sh.table)
    ensures AllConfirmed(sh) == PaidConfirmed(w, sh)
       <==> forall id :: id in AllConfirmed(sh) ==> RowBacked(w, sh.ledger, sh.table.rows[id])
  {
    forall id | id in AllConfirmed(sh)
      ensures RowBacked(w, sh.ledger, sh.table.rows[id]) <==> id in PaidConfirmed(w, sh)
    {
      ConfirmedIsBackedIffPaid(w, sh, id);
    }
  }

  /**
   * Counting for each Confirmed payment its own ledger record, all that is
   * confirmed is covered if and only if every Confirmed payment is borne out.
   */
  lemma AllIsCoveredIffBornOut(w: World, s: State)
    requires Reachable(w, s)
    ensures SumOver(AllConfirmed(s.shared), StoredAmount(s.shared))
         <= SumOver(OwnRecords(w, s.shared), WorthAt(s.shared.ledger))
       <==> forall id :: id in AllConfirmed(s.shared) ==> RowBacked(w, s.shared.ledger, s.shared.table.rows[id])
  {
    ReachableOk(w, s);
    OwnRecordsAreWorthThePaid(w, s.shared);
    PartIsWholeIffNoLess(AllConfirmed(s.shared), PaidConfirmed(w, s.shared), StoredAmount(s.shared));
    AllPaidIffAllBacked(w, s.shared);
  }
}
