/**
 * The ledger as Horizon shows it, and the search for the payment that carries
 * a given memo: one page of an account's feed, newest first, with one memo
 * lookup per candidate.
 */
module Horizon {
  import opened Wrappers
  import opened Collections
  import opened PaymentCore

  datatype StellarError = Request | Missing | Decode

  /** One operation on the ledger; `accounts` are those whose feed it appears in. */
  datatype LedgerRecord = LedgerRecord(
    paymentType: string,
    to: Option<string>,
    from: Option<string>,
    amount: Option<string>,
    assetType: Option<string>,
    transactionHash: string,
    createdAt: Time,
    accounts: set<string>)

  datatype StellarPayment = StellarPayment(
    transactionHash: string,
    from: string,
    to: string,
    amount: string,
    asset: string,
    memo: Option<string>,
    createdAt: Time)

  type MemoLookup = string -> Result<Option<string>, StellarError>

  const PAGE_LIMIT: nat := 50

  // === What is being looked for

  datatype Query = Query(destination: string, memo: string, since: Time)

  /** A payment to the destination, not older than the query. */
  predicate IsCandidate(record: LedgerRecord, query: Query) {
    record.paymentType == "payment" && record.to == Some(query.destination) && record.createdAt >= query.since
  }

  predicate Matches(record: LedgerRecord, query: Query, lookup: MemoLookup) {
    IsCandidate(record, query) && lookup(record.transactionHash) == Ok(Some(query.memo))
  }

  function OrEmpty(text: Option<string>): string {
    if text.Some? then text.value else ""
  }

  function Found(record: LedgerRecord, memo: Option<string>): StellarPayment {
    StellarPayment(record.transactionHash, OrEmpty(record.from), OrEmpty(record.to), OrEmpty(record.amount),
                   OrEmpty(record.assetType), memo, record.createdAt)
  }

  // === The scan

  function Scan(records: seq<LedgerRecord>, query: Query, lookup: MemoLookup)
    : Result<Option<StellarPayment>, StellarError>
  {
    if records == [] then Ok(None)
    else
      var record := records[0];
      if record.paymentType != "payment" then Scan(records[1..], query, lookup)
      else if record.createdAt < query.since then Ok(None)
      else if record.to != Some(query.destination) then Scan(records[1..], query, lookup)
      else
        match lookup(record.transactionHash)
        case Err(error) => Err(error)
        case Ok(memo) =>
          if memo != Some(query.memo) then Scan(records[1..], query, lookup)
          else Ok(Some(Found(record, memo)))
  }

  method FindPayment(page: Result<seq<LedgerRecord>, StellarError>, query: Query, lookup: MemoLookup)
    returns (r: Result<Option<StellarPayment>, StellarError>)
    ensures r == if page.Err? then Err(page.error) else Scan(page.value, query, lookup)
  {
    if page.Err? {
      return Err(page.error);
    }
    var records := page.value;
    var i := 0;
    while i < |records|
      invariant 0 <= i <= |records|
      invariant Scan(records, query, lookup) == Scan(records[i..], query, lookup)
    {
      var record := records[i];
      assert records[i..][1..] == records[i + 1..];
      i := i + 1;
      if record.paymentType != "payment" {
        continue;
      }
      if record.createdAt < query.since {
        break;
      }
      if record.to != Some(query.destination) {
        continue;
      }
      var memo := lookup(record.transactionHash);
      if memo.Err? {
        return Err(memo.error);
      }
      if memo.value != Some(query.memo) {
        continue;
      }
      return Ok(Some(Found(record, memo.value)));
    }
    return Ok(None);
  }

  // === What the scan returns

  /** Whatever the page holds, a result is a record that passes every filter. */
  lemma {:induction false} FoundIsAMatch(records: seq<LedgerRecord>, query: Query, lookup: MemoLookup) returns (i: nat)
    requires Scan(records, query, lookup).Ok? && Scan(records, query, lookup).value.Some?
    ensures i < |records| && Matches(records[i], query, lookup)
    ensures
      var record := records[i];
      && record.paymentType == "payment" && record.to == Some(query.destination) && record.createdAt >= query.since
      && lookup(record.transactionHash) == Ok(Some(query.memo))
    ensures
      var found, record := Scan(records, query, lookup).value.value, records[i];
      && found == Found(record, Some(query.memo))
      && found.transactionHash == record.transactionHash && found.createdAt == record.createdAt
      && found.to == query.destination && found.memo == Some(query.memo)
      && found.from == (if record.from.Some? then record.from.value else "")
      && found.amount == (if record.amount.Some? then record.amount.value else "")
      && found.asset == (if record.assetType.Some? then record.assetType.value else "")
  {
    var record := records[0];
    if record.paymentType == "payment" && record.to == Some(query.destination)
      && lookup(record.transactionHash) == Ok(Some(query.memo)) {
      i := 0;
    } else {
      i := FoundIsAMatch(records[1..], query, lookup);
      i := i + 1;
    }
  }

  /** On any page, what follows the first payment older than the query is not looked at. */
  lemma {:induction false} NothingAfterTheBreak(
    records: seq<LedgerRecord>, query: Query, lookup: MemoLookup, i: nat)
    requires i < |records| && records[i].paymentType == "payment" && records[i].createdAt < query.since
    ensures Scan(records, query, lookup) == Scan(records[..i], query, lookup)
  {
    if i > 0 {
      assert records[..i][1..] == records[1..][..i - 1];
      NothingAfterTheBreak(records[1..], query, lookup, i - 1);
    }
  }

  ghost predicate NewestFirst(records: seq<LedgerRecord>) {
    forall i, j :: 0 <= i < j < |records| ==> records[i].createdAt >= records[j].createdAt
  }

  /** The index of the first match, or the length when nothing matches. */
  function FirstMatch(records: seq<LedgerRecord>, query: Query, lookup: MemoLookup): (k: nat)
    ensures k <= |records|
    ensures k < |records| ==> Matches(records[k], query, lookup)
    ensures forall i :: 0 <= i < k ==> !Matches(records[i], query, lookup)
  {
    if records == [] || Matches(records[0], query, lookup) then 0
    else 1 + FirstMatch(records[1..], query, lookup)
  }

  /** A candidate whose memo cannot be read stands before any match. */
  ghost predicate LookupFailsFirst(records: seq<LedgerRecord>, query: Query, lookup: MemoLookup) {
    exists i :: 0 <= i < FirstMatch(records, query, lookup)
      && IsCandidate(records[i], query) && lookup(records[i].transactionHash).Err?
  }

  lemma {:induction false} NothingAfterOldRecord(records: seq<LedgerRecord>, query: Query, lookup: MemoLookup)
    requires NewestFirst(records) && records != [] && records[0].createdAt < query.since
    ensures forall i :: 0 <= i < |records| ==> !IsCandidate(records[i], query)
    ensures FirstMatch(records, query, lookup) == |records|
  {
  }

  lemma {:induction false} OldPageFindsNothing(records: seq<LedgerRecord>, query: Query, lookup: MemoLookup)
    requires NewestFirst(records)
    requires records != [] ==> records[0].createdAt < query.since
    ensures Scan(records, query, lookup) == Ok(None)
  {
    if records != [] {
      OldPageFindsNothing(records[1..], query, lookup);
    }
  }

  lemma FailsFirstStep(records: seq<LedgerRecord>, query: Query, lookup: MemoLookup)
    requires records != [] && !Matches(records[0], query, lookup)
    ensures LookupFailsFirst(records, query, lookup) <==>
      || (IsCandidate(records[0], query) && lookup(records[0].transactionHash).Err?)
      || LookupFailsFirst(records[1..], query, lookup)
  {
    var rest := records[1..];
    if LookupFailsFirst(records, query, lookup) {
      var i :| 0 <= i < FirstMatch(records, query, lookup)
        && IsCandidate(records[i], query) && lookup(records[i].transactionHash).Err?;
      if i > 0 {
        assert records[i] == rest[i - 1];
      }
    }
    if LookupFailsFirst(rest, query, lookup) {
      var i :| 0 <= i < FirstMatch(rest, query, lookup)
        && IsCandidate(rest[i], query) && lookup(rest[i].transactionHash).Err?;
      assert records[i + 1] == rest[i];
    }
  }

  /**
   * On a page in descending time order the scan that breaks early gives the
   * newest match, and fails exactly when a memo lookup fails before one.
   */
  lemma {:induction false} ScanIsNewestMatch(records: seq<LedgerRecord>, query: Query, lookup: MemoLookup)
    requires NewestFirst(records)
    ensures Scan(records, query, lookup).Err? <==> LookupFailsFirst(records, query, lookup)
    ensures !LookupFailsFirst(records, query, lookup) ==>
      var k := FirstMatch(records, query, lookup);
      Scan(records, query, lookup) == if k < |records| then Ok(Some(Found(records[k], Some(query.memo)))) else Ok(None)
  {
    if records != [] {
      var record, rest := records[0], records[1..];
      if record.createdAt < query.since {
        NothingAfterOldRecord(records, query, lookup);
        OldPageFindsNothing(records, query, lookup);
      } else {
        ScanIsNewestMatch(rest, query, lookup);
        if !Matches(record, query, lookup) {
          FailsFirstStep(records, query, lookup);
        }
      }
    }
  }

  // === The ledger behind the page

  /** An account's feed, newest first, from a ledger kept oldest first. */
  function Feed(ledger: seq<LedgerRecord>, account: string): seq<LedgerRecord> {
    if ledger == [] then []
    else
      var last, earlier := ledger[|ledger| - 1], ledger[..|ledger| - 1];
      if account in last.accounts then [last] + Feed(earlier, account) else Feed(earlier, account)
  }

  function PageOf(ledger: seq<LedgerRecord>, account: string): seq<LedgerRecord> {
    var feed := Feed(ledger, account);
    if |feed| <= PAGE_LIMIT then feed else feed[..PAGE_LIMIT]
  }

  lemma {:induction false} FeedMembers(ledger: seq<LedgerRecord>, account: string)
    ensures forall r :: r in Feed(ledger, account) <==> r in ledger && account in r.accounts
    ensures forall r :: r in PageOf(ledger, account) ==> r in ledger && account in r.accounts
  {
    if ledger != [] {
      var last, earlier := ledger[|ledger| - 1], ledger[..|ledger| - 1];
      assert ledger == earlier + [last];
      FeedMembers(earlier, account);
    }
  }

  /** Records arrive in time order, and a payment appears in its receiver's feed. */
  ghost predicate WellKept(ledger: seq<LedgerRecord>) {
    && (forall i, j :: 0 <= i < j < |ledger| ==> ledger[i].createdAt <= ledger[j].createdAt)
    && (forall r :: r in ledger && r.to.Some? ==> r.to.value in r.accounts)
  }

  lemma {:induction false} FeedIsNewestFirst(ledger: seq<LedgerRecord>, account: string)
    requires WellKept(ledger)
    ensures NewestFirst(Feed(ledger, account))
  {
    if ledger != [] {
      var last, earlier := ledger[|ledger| - 1], ledger[..|ledger| - 1];
      assert ledger == earlier + [last];
      FeedIsNewestFirst(earlier, account);
      FeedMembers(earlier, account);
      var feed := Feed(earlier, account);
      forall i | 0 <= i < |feed| ensures feed[i].createdAt <= last.createdAt {
        assert feed[i] in earlier;
      }
    }
  }

  predicate NoOlderThan(record: LedgerRecord, since: Time) {
    record.createdAt >= since
  }

  function RecentCount(ledger: seq<LedgerRecord>, query: Query): nat {
    Count(Feed(ledger, query.destination), (r: LedgerRecord) => NoOlderThan(r, query.since))
  }

  lemma {:induction false} FilterAll<T(!new)>(s: seq<T>, p: T -> bool)
    requires forall x :: x in s ==> p(x)
    ensures Filter(s, p) == s
  {
    if s != [] {
      FilterAll(s[1..], p);
    }
  }

  /** In a descending feed, everything up to a recent record is recent. */
  lemma RecentRecordsLead(feed: seq<LedgerRecord>, since: Time, i: nat)
    requires NewestFirst(feed) && i < |feed| && NoOlderThan(feed[i], since)
    ensures Count(feed, (r: LedgerRecord) => NoOlderThan(r, since)) > i
  {
    var recent := (r: LedgerRecord) => NoOlderThan(r, since);
    var head, tail := feed[..i + 1], feed[i + 1..];
    assert feed == head + tail;
    CountConcat(head, tail, recent);
    FilterAll(head, recent);
  }

  ghost predicate MatchOnLedger(ledger: seq<LedgerRecord>, query: Query, lookup: MemoLookup) {
    exists r :: r in ledger && Matches(r, query, lookup)
  }

  ghost predicate MatchOnPage(ledger: seq<LedgerRecord>, query: Query, lookup: MemoLookup) {
    exists r :: r in PageOf(ledger, query.destination) && Matches(r, query, lookup)
  }

  /** With at most a page of recent records, every match of the ledger is on the page. */
  lemma RecentMatchesAreOnThePage(ledger: seq<LedgerRecord>, query: Query, lookup: MemoLookup)
    requires WellKept(ledger) && RecentCount(ledger, query) <= 50
    ensures MatchOnLedger(ledger, query, lookup) <==> MatchOnPage(ledger, query, lookup)
  {
    var feed := Feed(ledger, query.destination);
    FeedIsNewestFirst(ledger, query.destination);
    FeedMembers(ledger, query.destination);
    forall r | r in ledger && Matches(r, query, lookup) ensures r in PageOf(ledger, query.destination) {
      assert r in feed;
      var i :| 0 <= i < |feed| && feed[i] == r;
      RecentRecordsLead(feed, query.since, i);
      if |feed| > PAGE_LIMIT {
        assert feed[..PAGE_LIMIT][i] == r;
      }
    }
  }

  // === The in-memory client's search

  predicate ListMatches(p: StellarPayment, query: Query) {
    p.to == query.destination && p.memo == Some(query.memo) && p.createdAt >= query.since
  }

  /** This payment matches, and nothing before its place does. */
  ghost predicate IsFirstMatch(payments: seq<StellarPayment>, query: Query, p: StellarPayment) {
    && ListMatches(p, query)
    && exists k :: 0 <= k < |payments| && payments[k] == p
         && forall i :: 0 <= i < k ==> !ListMatches(payments[i], query)
  }

  /** First in list order. */
  function FindInList(payments: seq<StellarPayment>, query: Query): (r: Option<StellarPayment>)
    ensures r.None? <==> forall p :: p in payments ==> !ListMatches(p, query)
    ensures r.Some? ==> r.value in payments && IsFirstMatch(payments, query, r.value)
  {
    if payments == [] then None
    else if ListMatches(payments[0], query) then Some(payments[0])
    else FindInList(payments[1..], query)
  }

  /** The payments of a ledger as the in-memory client would be given them, oldest first. */
  function ObservedPayments(ledger: seq<LedgerRecord>, memoOf: string -> Option<string>): (list: seq<StellarPayment>)
    ensures forall p :: p in list <==>
      exists r :: r in ledger && r.paymentType == "payment" && r.to.Some? && p == Found(r, memoOf(r.transactionHash))
  {
    if ledger == [] then []
    else
      var r := ledger[0];
      assert ledger == [r] + ledger[1..];
      if r.paymentType == "payment" && r.to.Some?
      then [Found(r, memoOf(r.transactionHash))] + ObservedPayments(ledger[1..], memoOf)
      else ObservedPayments(ledger[1..], memoOf)
  }

  function Reads(memoOf: string -> Option<string>): MemoLookup {
    (hash: string) => Ok(memoOf(hash))
  }

  lemma ListSeesTheLedger(ledger: seq<LedgerRecord>, query: Query, memoOf: string -> Option<string>)
    ensures FindInList(ObservedPayments(ledger, memoOf), query).Some?
      <==> MatchOnLedger(ledger, query, Reads(memoOf))
  {
    var list := ObservedPayments(ledger, memoOf);
    if FindInList(list, query).Some? {
      var p := FindInList(list, query).value;
      var r :| r in ledger && r.paymentType == "payment" && r.to.Some? && p == Found(r, memoOf(r.transactionHash));
      assert Matches(r, query, Reads(memoOf));
    }
    if MatchOnLedger(ledger, query, Reads(memoOf)) {
      var r :| r in ledger && Matches(r, query, Reads(memoOf));
      var p := Found(r, memoOf(r.transactionHash));
      assert p in list && ListMatches(p, query);
    }
  }

  /**
   * When no lookup fails, the scan of one page and the search of the whole
   * list agree on whether a match exists exactly when no match has slid off
   * the page; in particular whenever at most a page of records is recent.
   */
  lemma ScanAgreesWithList(ledger: seq<LedgerRecord>, query: Query, memoOf: string -> Option<string>)
    requires WellKept(ledger)
    ensures
      var scan := Scan(PageOf(ledger, query.destination), query, Reads(memoOf));
      var list := FindInList(ObservedPayments(ledger, memoOf), query);
      && scan.Ok?
      && (scan.value.Some? <==> MatchOnPage(ledger, query, Reads(memoOf)))
      && (list.Some? <==> MatchOnLedger(ledger, query, Reads(memoOf)))
    ensures RecentCount(ledger, query) <= 50 ==>
      var scan := Scan(PageOf(ledger, query.destination), query, Reads(memoOf));
      scan.value.Some? <==> FindInList(ObservedPayments(ledger, memoOf), query).Some?
  {
    var page, lookup := PageOf(ledger, query.destination), Reads(memoOf);
    FeedIsNewestFirst(ledger, query.destination);
    ScanIsNewestMatch(page, query, lookup);
    forall r | r in page && Matches(r, query, lookup) ensures FirstMatch(page, query, lookup) < |page| {
      var i :| 0 <= i < |page| && page[i] == r;
    }
    ListSeesTheLedger(ledger, query, memoOf);
    if RecentCount(ledger, query) <= PAGE_LIMIT {
      RecentMatchesAreOnThePage(ledger, query, lookup);
    }
  }

  lemma {:induction false} FirstMatchOfPrefix(records: seq<LedgerRecord>, query: Query, lookup: MemoLookup, n: nat)
    requires n <= |records|
    ensures FirstMatch(records[..n], query, lookup)
         == if FirstMatch(records, query, lookup) < n then FirstMatch(records, query, lookup) else n
  {
    if n > 0 && !Matches(records[0], query, lookup) {
      FirstMatchOfPrefix(records[1..], query, lookup, n - 1);
      assert records[..n][1..] == records[1..][..n - 1];
    }
  }

  /** How many records of the feed are newer than the newest match; all of them when nothing matches. */
  function NewerThanMatch(ledger: seq<LedgerRecord>, query: Query, lookup: MemoLookup): nat {
    FirstMatch(Feed(ledger, query.destination), query, lookup)
  }

  lemma MatchOnLedgerIsInFeed(ledger: seq<LedgerRecord>, query: Query, lookup: MemoLookup)
    requires WellKept(ledger)
    ensures MatchOnLedger(ledger, query, lookup)
       <==> NewerThanMatch(ledger, query, lookup) < |Feed(ledger, query.destination)|
  {
    var feed := Feed(ledger, query.destination);
    FeedMembers(ledger, query.destination);
    if MatchOnLedger(ledger, query, lookup) {
      var r :| r in ledger && Matches(r, query, lookup);
      assert r in feed;
      var i :| 0 <= i < |feed| && feed[i] == r;
    }
    if NewerThanMatch(ledger, query, lookup) < |feed| {
      assert feed[NewerThanMatch(ledger, query, lookup)] in feed;
    }
  }

  lemma MatchOnPageIsAmongTheNewest(ledger: seq<LedgerRecord>, query: Query, lookup: MemoLookup)
    ensures MatchOnPage(ledger, query, lookup)
       <==> NewerThanMatch(ledger, query, lookup) < |PageOf(ledger, query.destination)|
  {
    var feed, page := Feed(ledger, query.destination), PageOf(ledger, query.destination);
    if |feed| > PAGE_LIMIT {
      FirstMatchOfPrefix(feed, query, lookup, PAGE_LIMIT);
    }
    var k := FirstMatch(page, query, lookup);
    if MatchOnPage(ledger, query, lookup) {
      var r :| r in page && Matches(r, query, lookup);
      var i :| 0 <= i < |page| && page[i] == r;
    }
    if k < |page| {
      assert page[k] in page;
    }
  }

  /**
   * When no lookup fails, scan and list search agree on whether a match exists
   * if and only if there is none, or fewer than fifty records of the feed are
   * newer than the newest.
   */
  lemma ScanAgreesIffMatchIsRecent(ledger: seq<LedgerRecord>, query: Query, memoOf: string -> Option<string>)
    requires WellKept(ledger)
    ensures
      var scan := Scan(PageOf(ledger, query.destination), query, Reads(memoOf));
      var newer := NewerThanMatch(ledger, query, Reads(memoOf));
      && scan.Ok?
      && ((scan.value.Some? <==> FindInList(ObservedPayments(ledger, memoOf), query).Some?)
          <==> (newer == |Feed(ledger, query.destination)| || newer < 50))
  {
    ScanAgreesWithList(ledger, query, memoOf);
    MatchOnLedgerIsInFeed(ledger, query, Reads(memoOf));
    MatchOnPageIsAmongTheNewest(ledger, query, Reads(memoOf));
  }

  // === A match that slid off the page

  function Unrelated(now: Time): LedgerRecord {
    LedgerRecord("create_account", None, None, None, None, "other", now, {"shop"})
  }

  function Paid(now: Time): LedgerRecord {
    LedgerRecord("payment", Some("shop"), Some("payer"), Some("10"), Some("native"), "tx", now, {"shop"})
  }

  function Crowd(n: nat, now: Time): seq<LedgerRecord> {
    seq(n, _ => Unrelated(now))
  }

  lemma FeedOfLater(earlier: seq<LedgerRecord>, last: LedgerRecord, account: string)
    requires account in last.accounts
    ensures Feed(earlier + [last], account) == [last] + Feed(earlier, account)
  {
    assert (earlier + [last])[..|earlier|] == earlier;
  }

  lemma {:induction false} FeedOfCrowd(earlier: seq<LedgerRecord>, n: nat, now: Time)
    ensures Feed(earlier + Crowd(n, now), "shop") == Crowd(n, now) + Feed(earlier, "shop")
  {
    if n == 0 {
      assert earlier + Crowd(0, now) == earlier;
    } else {
      var last := Unrelated(now);
      var fewer := earlier + Crowd(n - 1, now);
      assert earlier + Crowd(n, now) == fewer + [last];
      FeedOfLater(fewer, last, "shop");
      FeedOfCrowd(earlier, n - 1, now);
      var feed := Feed(earlier, "shop");
      assert [last] + (Crowd(n - 1, now) + feed) == Crowd(n, now) + feed;
    }
  }

  /** One page is not the ledger: fifty later records of any kind hide the payment. */
  lemma FiftyNewerRecordsHideAMatch(now: Time)
    ensures
      var ledger := [Paid(now)] + Crowd(50, now);
      var query := Query("shop", "memo", now);
      var memoOf := (hash: string) => if hash == "tx" then Some("memo") else None;
      && WellKept(ledger)
      && MatchOnLedger(ledger, query, Reads(memoOf))
      && Scan(PageOf(ledger, "shop"), query, Reads(memoOf)) == Ok(None)
  {
    var ledger := [Paid(now)] + Crowd(50, now);
    var query := Query("shop", "memo", now);
    var memoOf := (hash: string) => if hash == "tx" then Some("memo") else None;
    FeedOfCrowd([Paid(now)], 50, now);
    assert PageOf(ledger, "shop") == Crowd(50, now);
    assert WellKept(ledger) by {
      forall i | 0 <= i < |ledger| ensures ledger[i].createdAt == now && ledger[i].accounts == {"shop"} {
        assert i > 0 ==> ledger[i] in Crowd(50, now);
      }
    }
    assert Paid(now) in ledger && Matches(Paid(now), query, Reads(memoOf));
    ScanAgreesWithList(ledger, query, memoOf);
  }
}
