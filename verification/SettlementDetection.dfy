/**
 * Exactly when a search detects a payment, for every ledger kept in order and
 * every pattern of failing queries, and what that means for a turn.
 */
module SettlementDetection {
  import opened Wrappers
  import opened Amounts
  import opened PaymentCore
  import opened PaymentTable
  import opened Horizon
  import opened Settlement
  import opened SettlementSafety
  import opened ReconciliationWorker
  import opened ReconciliationRefinement
  import opened Decimals
  import SettlementCreation
  import SettlementRace

  // === The newest match

  function QueryFor(p: Payment, memo: string): Query {
    Query(p.destination, memo, p.createdAt)
  }

  /** The place on the page of the newest record that carries the memo; the length of the page when none does. */
  function NewestPlace(w: World, ledger: seq<LedgerRecord>, p: Payment, memo: string): (k: nat)
    ensures k <= |PageOf(ledger, p.destination)|
  {
    FirstMatch(PageOf(ledger, p.destination), QueryFor(p, memo), Lookup(w, {}))
  }

  /** Some record on the page carries the memo, and the newest that does pays the amount. */
  predicate NewestMatchPays(w: World, ledger: seq<LedgerRecord>, p: Payment, memo: string) {
    var page, k := PageOf(ledger, p.destination), NewestPlace(w, ledger, p, memo);
    k < |page| && AmountsMatch(p.amount, OrEmpty(page[k].amount))
  }

  /** The page cannot be read, or the memo of a candidate no older than the newest match. */
  ghost predicate Unreadable(
    w: World, ledger: seq<LedgerRecord>, p: Payment, memo: string, pageFails: bool, failing: set<string>)
  {
    var page := PageOf(ledger, p.destination);
    || pageFails
    || exists i :: 0 <= i < |page| && i <= NewestPlace(w, ledger, p, memo)
         && IsCandidate(page[i], QueryFor(p, memo)) && page[i].transactionHash in failing
  }

  lemma PageIsNewestFirst(ledger: seq<LedgerRecord>, account: string)
    requires WellKept(ledger)
    ensures NewestFirst(PageOf(ledger, account))
  {
    FeedIsNewestFirst(ledger, account);
  }

  /** A failing lookup matters exactly when its record stands no later than the first match. */
  lemma FailuresBeforeTheMatch(w: World, page: seq<LedgerRecord>, query: Query, failing: set<string>)
    ensures
      var k := FirstMatch(page, query, Lookup(w, {}));
      var fails := exists i :: 0 <= i < |page| && i <= k
                     && IsCandidate(page[i], query) && page[i].transactionHash in failing;
      && (LookupFailsFirst(page, query, Lookup(w, failing)) <==> fails)
      && (!fails ==> FirstMatch(page, query, Lookup(w, failing)) == k)
  {
    var k, seen := FirstMatch(page, query, Lookup(w, {})), FirstMatch(page, query, Lookup(w, failing));
    assert k <= seen;
    if k < seen {
      assert IsCandidate(page[k], query) && page[k].transactionHash in failing;
    }
  }

  /** The ledger's answer: an error when something needed cannot be read, and else the newest match. */
  lemma AnswerIsNewestMatch(
    w: World, ledger: seq<LedgerRecord>, p: Payment, memo: string, pageFails: bool, failing: set<string>)
    requires WellKept(ledger)
    ensures
      var found := AskLedger(w, ledger, p, memo, pageFails, failing);
      var page, k := PageOf(ledger, p.destination), NewestPlace(w, ledger, p, memo);
      && (found.Err? <==> Unreadable(w, ledger, p, memo, pageFails, failing))
      && (found.Ok? ==> found.value == if k < |page| then Some(Found(page[k], Some(memo))) else None)
  {
    var page := PageOf(ledger, p.destination);
    PageIsNewestFirst(ledger, p.destination);
    ScanIsNewestMatch(page, QueryFor(p, memo), Lookup(w, failing));
    FailuresBeforeTheMatch(w, page, QueryFor(p, memo), failing);
  }

  /** A search leads to an update if and only if it can be answered and the newest match pays the amount. */
  lemma SearchDetectsIff(
    w: World, ledger: seq<LedgerRecord>, p: Payment, memo: string, pageFails: bool, failing: set<string>,
    rest: seq<Payment>)
    requires WellKept(ledger)
    ensures
      var phase := Searched(p, AskLedger(w, ledger, p, memo, pageFails, failing), rest);
      var page, k := PageOf(ledger, p.destination), NewestPlace(w, ledger, p, memo);
      && (phase.Updating? <==>
            !Unreadable(w, ledger, p, memo, pageFails, failing) && NewestMatchPays(w, ledger, p, memo))
      && (phase.Updating? ==> phase == Updating(p, Detected, Some(page[k].transactionHash), rest))
  {
    AnswerIsNewestMatch(w, ledger, p, memo, pageFails, failing);
  }

  // === One turn, two turns

  /** The turn's search was answered from this ledger, with these failures. */
  predicate AnsweredFrom(
    w: World, ledger: seq<LedgerRecord>, p: Payment, turn: Turn, pageFails: bool, failing: set<string>)
  {
    p.memo.Some? ==> turn.found == AskLedger(w, ledger, p, p.memo.value, pageFails, failing)
  }

  /** Not expired yet, the search can be answered, and the newest match pays the amount. */
  ghost predicate Detects(
    w: World, ledger: seq<LedgerRecord>, p: Payment, now: Time, pageFails: bool, failing: set<string>)
  {
    && now - p.createdAt < (if w.expiryWindow <= 9_223_372_036_854_775_807_000 then w.expiryWindow else 0)
    && p.memo.Some?
    && !Unreadable(w, ledger, p, p.memo.value, pageFails, failing)
    && NewestMatchPays(w, ledger, p, p.memo.value)
  }

  /**
   * A Pending payment's turn makes it Detected exactly then, under the hash of
   * the newest match, and Expired exactly when its age has reached the window.
   */
  lemma TurnDetectsIff(
    w: World, ledger: seq<LedgerRecord>, p: Payment, turn: Turn, pageFails: bool, failing: set<string>)
    requires p.status.Pending? && WellKept(ledger) && AnsweredFrom(w, ledger, p, turn, pageFails, failing)
    ensures
      var p' := Reconciled(Expiry(w), p, turn);
      && (p'.status.Detected? <==> Detects(w, ledger, p, turn.now, pageFails, failing))
      && (p'.status.Expired? <==>
            turn.now - p.createdAt >= if w.expiryWindow <= 9_223_372_036_854_775_807_000 then w.expiryWindow else 0)
      && (p'.status.Detected? ==>
            var page := PageOf(ledger, p.destination);
            p'.txHash == Some(page[NewestPlace(w, ledger, p, p.memo.value)].transactionHash))
  {
    EdgeFromPending(Expiry(w), p, turn);
    ReachesWindow(w.expiryWindow, turn.now - p.createdAt);
    if p.memo.Some? {
      AnswerIsNewestMatch(w, ledger, p, p.memo.value, pageFails, failing);
    }
  }

  /** The verdict is asked for by the payment's hash, and may be missing. */
  predicate JudgedFrom(w: World, p: Payment, turn: Turn, fails: bool) {
    p.txHash.Some? ==> turn.successful == if fails then Err(Request) else Ok(w.successful(p.txHash.value))
  }

  /**
   * Two turns make a Pending payment Confirmed if and only if the first
   * detects it, the second is told the verdict, and the newest match belongs
   * to a successful transaction.
   */
  lemma TwoTurnsConfirmIff(
    w: World, ledger: seq<LedgerRecord>, p: Payment, first: Turn, second: Turn, pageFails: bool, failing: set<string>,
    verdictFails: bool)
    requires p.status.Pending? && WellKept(ledger) && AnsweredFrom(w, ledger, p, first, pageFails, failing)
    requires JudgedFrom(w, Reconciled(Expiry(w), p, first), second, verdictFails)
    ensures
      var p' := Reconciled(Expiry(w), Reconciled(Expiry(w), p, first), second);
      p'.status.Confirmed? <==>
        && Detects(w, ledger, p, first.now, pageFails, failing)
        && !verdictFails
        && var page := PageOf(ledger, p.destination);
           w.successful(page[NewestPlace(w, ledger, p, p.memo.value)].transactionHash)
  {
    var between := Reconciled(Expiry(w), p, first);
    TurnDetectsIff(w, ledger, p, first, pageFails, failing);
    AtMostOneEdge(Expiry(w), p, first);
    AtMostOneEdge(Expiry(w), between, second);
    if between.status.Detected? {
      EdgeFromDetected(Expiry(w), between, second);
    }
  }

  // === In the machine

  /** The stored payment after an undisturbed pass in which it had its turn. */
  lemma PassDetectsIff(
    w: World, s: State, actor: nat, list: seq<Payment>, turns: Turns, i: nat, pageFails: bool, failing: set<string>)
    returns (s': State)
    requires PhaseOf(s, actor) == Idle && IsPendingList(s.shared.table, list) && PassGiven(w, s.shared, list, turns)
    requires i < Stop(Payments(s.shared.table), list, Expiry(w), turns, 0) && list[i].status.Pending?
    requires WellKept(s.shared.ledger)
    requires AnsweredFrom(w, s.shared.ledger, list[i], turns(list[i].id), pageFails, failing)
    ensures Reaches(w, s, s') && PhaseOf(s', actor) == Idle && list[i].id in s'.shared.table.rows
    ensures s'.shared.table.rows[list[i].id].status.Detected?
       <==> Detects(w, s.shared.ledger, list[i], turns(list[i].id).now, pageFails, failing)
  {
    var p, k := list[i], Stop(Payments(s.shared.table), list, Expiry(w), turns, 0);
    s' := PassIsARun(w, s, actor, list, turns);
    assert p in list && list[..k][i] == p;
    assert p.id in Ids(list[..k]);
    TurnDetectsIff(w, s.shared.ledger, p, turns(p.id), pageFails, failing);
    StoredPayment(s'.shared.table, p.id);
  }

  // === Against what is on the ledger

  /** Every record that carries the memo pays the amount. */
  ghost predicate MatchesPay(w: World, ledger: seq<LedgerRecord>, p: Payment, memo: string) {
    forall r :: r in ledger && Matches(r, QueryFor(p, memo), Lookup(w, {}))
      ==> AmountsMatch(p.amount, OrEmpty(r.amount))
  }

  /**
   * With at most a page of recent records and no other amount under the memo,
   * what the search can detect is what is on the ledger.
   */
  lemma DetectableIffBacked(w: World, ledger: seq<LedgerRecord>, p: Payment, memo: string)
    requires WellKept(ledger) && p.memo == Some(memo)
    requires RecentCount(ledger, QueryFor(p, memo)) <= 50 && MatchesPay(w, ledger, p, memo)
    ensures NewestMatchPays(w, ledger, p, memo) <==> exists txHash :: Backed(w, ledger, p, txHash)
  {
    var page, query := PageOf(ledger, p.destination), QueryFor(p, memo);
    FeedMembers(ledger, p.destination);
    RecentMatchesAreOnThePage(ledger, query, Lookup(w, {}));
    if NewestMatchPays(w, ledger, p, memo) {
      var r := page[NewestPlace(w, ledger, p, memo)];
      assert r in page && Backs(w, r, p, r.transactionHash);
      assert Backed(w, ledger, p, r.transactionHash);
    }
    if txHash :| Backed(w, ledger, p, txHash) {
      var r :| r in ledger && Backs(w, r, p, txHash);
      assert Matches(r, query, Lookup(w, {}));
      var found :| found in page && Matches(found, query, Lookup(w, {}));
      var i :| 0 <= i < |page| && page[i] == found;
      assert page[NewestPlace(w, ledger, p, memo)] in page;
    }
  }

  // === A payment hidden by another amount

  /** Every transaction carries the memo. */
  function SharedMemoWorld(): World {
    World((hash: string) => Some("memo"), (hash: string) => true, 3600 * SECOND)
  }

  function TooLittle(now: Time): LedgerRecord {
    Paid(now).(amount := Some("1"), transactionHash := "tx-2")
  }

  lemma OneIsNotTen()
    ensures AmountsMatch("10", "10") && !AmountsMatch("10", "1")
  {
    SettlementCreation.TenIsAnAmount();
    assert "1"[..0] == "";
    assert Value("1") == 1 && AllDigits("1") && Pow10(MAX_DIGITS) > 1;
    ParsesWhole("1");
    assert Pow10(0) == 1;
  }

  lemma PageOfTwo()
    ensures PageOf([Paid(0), TooLittle(0)], "shop") == [TooLittle(0), Paid(0)]
  {
    assert [Paid(0)] + [TooLittle(0)] == [Paid(0), TooLittle(0)];
    assert [] + [Paid(0)] == [Paid(0)];
    FeedOfLater([Paid(0)], TooLittle(0), "shop");
    FeedOfLater([], Paid(0), "shop");
  }

  /**
   * The payment is on the ledger and on the page, and no turn detects it: a
   * newer record of another amount under the same memo stands before it.
   */
  lemma OtherAmountHidesThePayment(turn: Turn, pageFails: bool, failing: set<string>)
    ensures
      var w, ledger, p := SharedMemoWorld(), [Paid(0), TooLittle(0)], SettlementRace.ThePayment();
      && p.status.Pending? && WellKept(ledger) && Paid(0) in PageOf(ledger, p.destination)
      && Backs(w, Paid(0), p, "tx")
      && (AnsweredFrom(w, ledger, p, turn, pageFails, failing) ==>
            !Reconciled(Expiry(w), p, turn).status.Detected?)
  {
    var w, ledger, p := SharedMemoWorld(), [Paid(0), TooLittle(0)], SettlementRace.ThePayment();
    OneIsNotTen();
    PageOfTwo();
    assert Matches(TooLittle(0), QueryFor(p, "memo"), Lookup(w, {}));
    assert !NewestMatchPays(w, ledger, p, "memo");
    if AnsweredFrom(w, ledger, p, turn, pageFails, failing) {
      TurnDetectsIff(w, ledger, p, turn, pageFails, failing);
    }
  }
}
