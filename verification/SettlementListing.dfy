/** What `list_for_payment` shows of a payment, against the payment's history. */
module SettlementListing {
  import opened Collections
  import opened HashTable
  import opened PaymentCore
  import opened Settlement
  import opened SettlementSafety
  import opened Subsequences
  import opened SettlementOvertaking
  import opened SettlementDelivery
  import SettlementLifecycle
  import SettlementOrder
  import WebhookRepository

  // === Sorting by time

  /** The clock moved on between any two enqueues. */
  predicate StrictlyTimed(enqueued: seq<Emission>) {
    forall i, j :: 0 <= i < j < |enqueued| ==> enqueued[i].at < enqueued[j].at
  }

  ghost predicate StrictlySortedBy<T(!new)>(s: seq<T>, key: T -> int) {
    forall i, j :: 0 <= i < j < |s| ==> key(s[i]) < key(s[j])
  }

  lemma HasMember<T(!new)>(s: seq<T>)
    requires s != []
    ensures s[0] in s && exists x :: x in s
  {
  }

  lemma SameTails<T(!new)>(a: seq<T>, b: seq<T>, key: T -> int)
    requires StrictlySortedBy(a, key) && NoDuplicates(b)
    requires a != [] && b != [] && a[0] == b[0] && forall x :: x in a <==> x in b
    ensures NoDuplicates(b[1..]) && forall x :: x in a[1..] <==> x in b[1..]
  {
    assert a == [a[0]] + a[1..] && b == [b[0]] + b[1..];
    assert Enumerates(b, set x | x in b);
    EnumerationTail(b, set x | x in b);
    assert a[0] !in a[1..];
    forall x ensures x in a[1..] <==> x in b[1..] {
      assert x in a <==> x == a[0] || x in a[1..];
      assert x in b[1..] <==> x in (set y | y in b) - {b[0]};
    }
  }

  lemma {:induction false} StrictOrderIsUnique<T(!new)>(a: seq<T>, b: seq<T>, key: T -> int)
    requires StrictlySortedBy(a, key) && SortedBy(b, key) && NoDuplicates(b)
    requires forall x :: x in a <==> x in b
    ensures a == b
  {
    if a == [] {
      if b != [] {
        HasMember(b);
      }
    } else {
      HasMember(a);
      var i :| 0 <= i < |b| && b[i] == a[0];
      assert b[0] in b;
      var j :| 0 <= j < |a| && a[j] == b[0];
      assert a[0] == b[0];
      SameTails(a, b, key);
      StrictOrderIsUnique(a[1..], b[1..], key);
    }
  }

  // === A payment's records

  function RecordStatus(): WebhookRepository.EventRecord -> PaymentStatus {
    (r: WebhookRepository.EventRecord) => NamedStatus(r.payload)
  }

  function EmissionStatus(): Emission -> PaymentStatus {
    (m: Emission) => NamedStatus(m.event)
  }

  ghost predicate RecordsOf(records: seq<WebhookRepository.EventRecord>, enqueued: seq<Emission>) {
    |records| == |enqueued| && forall i :: 0 <= i < |records| ==> RecordOf(records[i], enqueued[i])
  }

  lemma {:induction false} FilteredAlike(
    records: seq<WebhookRepository.EventRecord>, enqueued: seq<Emission>, id: Uuid)
    requires RecordsOf(records, enqueued)
    ensures RecordsOf(Filter(records, WebhookRepository.OfPayment(id)),
                      Filter(enqueued, SettlementOrder.EmittedFor(id)))
  {
    if records != [] {
      assert RecordOf(records[0], enqueued[0]);
      FilteredAlike(records[1..], enqueued[1..], id);
    }
  }

  lemma {:induction false} ValuesInOrder(events: WebhookRepository.Events, filed: seq<Uuid>)
    requires forall id :: id in filed ==> id in events
    ensures forall i :: 0 <= i < |filed| ==> Values(events, filed)[i] == events[filed[i]]
  {
    if filed != [] {
      ValuesInOrder(events, filed[1..]);
    }
  }

  lemma StoredRecords(events: WebhookRepository.Events, filed: seq<Uuid>, enqueued: seq<Emission>)
    requires Stores(events, filed, enqueued)
    ensures RecordsOf(Values(events, filed), enqueued)
    ensures forall r :: r in Values(events, filed) <==> r.id in events && events[r.id] == r
  {
    ValuesInOrder(events, filed);
    forall r ensures r in Values(events, filed) <==> r.id in events && events[r.id] == r {
      ValuesMultiplicity(events, filed, WebhookRepository.EventId(), r);
      assert r in Values(events, filed) <==> multiset(Values(events, filed))[r] > 0;
      assert r.id in filed <==> multiset(filed)[r.id] > 0;
    }
  }

  /** A payment's records, in the order they were enqueued. */
  function Filed(events: WebhookRepository.Events, filed: seq<Uuid>, id: Uuid): seq<WebhookRepository.EventRecord>
    requires forall k :: k in filed ==> k in events
  {
    Selected(events, filed, WebhookRepository.OfPayment(id))
  }

  lemma FiledAreListed(events: WebhookRepository.Events, filed: seq<Uuid>, enqueued: seq<Emission>, id: Uuid)
    requires Stores(events, filed, enqueued)
    ensures RecordsOf(Filed(events, filed, id), Filter(enqueued, SettlementOrder.EmittedFor(id)))
    ensures ListsOnce(Filed(events, filed, id), events, WebhookRepository.EventId(), WebhookRepository.OfPayment(id))
  {
    StoredRecords(events, filed, enqueued);
    FilteredAlike(Values(events, filed), enqueued, id);
    SelectedListsOnce(events, filed, WebhookRepository.EventId(), WebhookRepository.OfPayment(id),
                      WebhookRepository.ByCreation());
  }

  /** A payment's listing holds its records in the order they were enqueued. */
  lemma ListingIsInOrder(
    events: WebhookRepository.Events, filed: seq<Uuid>, enqueued: seq<Emission>, id: Uuid,
    listing: seq<WebhookRepository.EventRecord>)
    requires Stores(events, filed, enqueued) && StrictlyTimed(Filter(enqueued, SettlementOrder.EmittedFor(id)))
    requires ListsOnce(listing, events, WebhookRepository.EventId(), WebhookRepository.OfPayment(id))
    requires SortedBy(listing, WebhookRepository.ByCreation())
    ensures RecordsOf(listing, Filter(enqueued, SettlementOrder.EmittedFor(id)))
  {
    var mine, kept := Filed(events, filed, id), Filter(enqueued, SettlementOrder.EmittedFor(id));
    FiledAreListed(events, filed, enqueued, id);
    forall i, j | 0 <= i < j < |mine|
      ensures WebhookRepository.ByCreation()(mine[i]) < WebhookRepository.ByCreation()(mine[j])
    {
      assert RecordOf(mine[i], kept[i]) && RecordOf(mine[j], kept[j]);
    }
    StrictOrderIsUnique(mine, listing, WebhookRepository.ByCreation());
  }

  // === What a listing holds

  /** What the repository may answer for a payment: its records, oldest first, ties either way. */
  ghost predicate IsListing(j: Joint, id: Uuid, listing: seq<WebhookRepository.EventRecord>) {
    && ListsOnce(listing, j.outbox.events, WebhookRepository.EventId(), WebhookRepository.OfPayment(id))
    && SortedBy(listing, WebhookRepository.ByCreation())
  }

  /** The payment's events that reached the repository. */
  function Kept(j: Joint, id: Uuid): seq<Emission> {
    Filter(Filter(j.settlement.shared.emissions, SettlementOrder.EmittedFor(id)), WasEnqueued())
  }

  /** The clock moved on between the payment's enqueues. */
  predicate ClockMovesOn(j: Joint, id: Uuid) {
    StrictlyTimed(Kept(j, id))
  }

  lemma {:induction false} FiltersCommute<T(!new)>(s: seq<T>, p: T -> bool, q: T -> bool)
    ensures Filter(Filter(s, p), q) == Filter(Filter(s, q), p)
  {
    if s != [] {
      FiltersCommute(s[1..], p, q);
    }
  }

  lemma KeptIsFiltered(j: Joint, id: Uuid)
    ensures Kept(j, id) == Filter(EnqueuedOf(j.settlement.shared.emissions), SettlementOrder.EmittedFor(id))
  {
    FiltersCommute(j.settlement.shared.emissions, WasEnqueued(), SettlementOrder.EmittedFor(id));
  }

  /**
   * In every state a joint run reaches, once the clock moves on between a
   * payment's enqueues, `list_for_payment` answers exactly the events tried
   * for the payment, in the order they were tried, with the failed enqueues
   * left out.
   */
  lemma ListingIsTheTriesThatSucceeded(
    w: World, now: Time, moves: seq<JointMove>, id: Uuid, listing: seq<WebhookRepository.EventRecord>)
    requires IsJointRun(w, Started(now), moves)
    requires ClockMovesOn(AfterJoint(w, Started(now), moves), id)
    requires IsListing(AfterJoint(w, Started(now), moves), id, listing)
    ensures RecordsOf(listing, Kept(AfterJoint(w, Started(now), moves), id))
  {
    var j := AfterJoint(w, Started(now), moves);
    OutboxHoldsWhatWasEnqueued(w, now, moves);
    KeptIsFiltered(j, id);
    ListingIsInOrder(j.outbox.events, j.filed, EnqueuedOf(j.settlement.shared.emissions), id, listing);
  }

  // === Against history

  lemma {:induction false} ToldIsMapped(emissions: seq<Emission>, id: Uuid)
    ensures Told(emissions, id) == Map(Filter(emissions, SettlementOrder.EmittedFor(id)), EmissionStatus())
  {
    if emissions != [] {
      var init, last := emissions[..|emissions| - 1], emissions[|emissions| - 1];
      assert emissions == init + [last];
      ToldIsMapped(init, id);
      FilterConcat(init, [last], SettlementOrder.EmittedFor(id));
      FilterOne(last, SettlementOrder.EmittedFor(id));
      assert Map(Filter(emissions, SettlementOrder.EmittedFor(id)), EmissionStatus())
          == Map(Filter(init, SettlementOrder.EmittedFor(id)), EmissionStatus())
           + if last.event.payment.id == id then [NamedStatus(last.event)] else [];
    }
  }

  lemma SameStatuses(listing: seq<WebhookRepository.EventRecord>, enqueued: seq<Emission>)
    requires RecordsOf(listing, enqueued)
    ensures Map(listing, RecordStatus()) == Map(enqueued, EmissionStatus())
  {
    forall i | 0 <= i < |listing| ensures Map(listing, RecordStatus())[i] == Map(enqueued, EmissionStatus())[i] {
      assert RecordOf(listing[i], enqueued[i]);
    }
  }

  /** The statuses a listing names are a subsequence of the payment's history. */
  ghost predicate FollowsHistory(j: Joint, id: Uuid, listing: seq<WebhookRepository.EventRecord>) {
    IsSubsequence(Map(listing, RecordStatus()), Trail(j.settlement.shared.log, id))
  }

  /** What reached the repository follows what was tried, and so the history unless something overtook. */
  lemma KeptFollowsHistory(w: World, now: Time, moves: seq<JointMove>, id: Uuid)
    requires IsJointRun(w, Started(now), moves)
    requires IsRun(w, Initial(now), SettlementMoves(moves)) && NoOvertaking(w, Initial(now), SettlementMoves(moves), id)
    ensures
      var j := AfterJoint(w, Started(now), moves);
      IsSubsequence(Map(Kept(j, id), EmissionStatus()), Trail(j.settlement.shared.log, id))
  {
    var j := AfterJoint(w, Started(now), moves);
    var emissions := j.settlement.shared.emissions;
    FilterIsSubsequence(Filter(emissions, SettlementOrder.EmittedFor(id)), WasEnqueued());
    MapKeepsSubsequence(Kept(j, id), Filter(emissions, SettlementOrder.EmittedFor(id)), EmissionStatus());
    ToldIsMapped(emissions, id);
    JointRunIsASettlementRun(w, Started(now), moves);
    EventsFollowHistoryIffNoOvertaking(w, now, SettlementMoves(moves), id);
    SubsequenceTransitive(Map(Kept(j, id), EmissionStatus()), Told(emissions, id), Trail(j.settlement.shared.log, id));
  }

  /**
   * With any number of workers, any deliveries in between, and a clock that
   * moves on between a payment's enqueues: unless a later event of the payment
   * overtook its detection's, the statuses its listing names are a subsequence
   * of its history.
   */
  lemma ListingFollowsHistoryUnlessOvertaken(
    w: World, now: Time, moves: seq<JointMove>, id: Uuid, listing: seq<WebhookRepository.EventRecord>)
    requires IsJointRun(w, Started(now), moves)
    requires ClockMovesOn(AfterJoint(w, Started(now), moves), id)
    requires IsListing(AfterJoint(w, Started(now), moves), id, listing)
    requires IsRun(w, Initial(now), SettlementMoves(moves)) && NoOvertaking(w, Initial(now), SettlementMoves(moves), id)
    ensures FollowsHistory(AfterJoint(w, Started(now), moves), id, listing)
  {
    ListingIsTheTriesThatSucceeded(w, now, moves, id, listing);
    SameStatuses(listing, Kept(AfterJoint(w, Started(now), moves), id));
    KeptFollowsHistory(w, now, moves, id);
  }

  // === With one worker, exactly

  lemma {:induction false} SubsequenceIsNoLonger<T>(a: seq<T>, b: seq<T>)
    requires IsSubsequence(a, b)
    ensures |a| <= |b|
    decreases |b|
  {
    if a != [] {
      if a[0] == b[0] && IsSubsequence(a[1..], b[1..]) {
        SubsequenceIsNoLonger(a[1..], b[1..]);
      } else {
        SubsequenceIsNoLonger(a, b[1..]);
      }
    }
  }

  /** Two events of one payment at one time may be listed either way round. */
  lemma TiesMayBeListedBackwards(j: Joint, id: Uuid) returns (listing: seq<WebhookRepository.EventRecord>)
    requires Stores(j.outbox.events, j.filed, EnqueuedOf(j.settlement.shared.emissions))
    requires |Kept(j, id)| == 2 && Kept(j, id)[0].at >= Kept(j, id)[1].at
    ensures IsListing(j, id, listing)
    ensures Map(listing, RecordStatus()) == [NamedStatus(Kept(j, id)[1].event), NamedStatus(Kept(j, id)[0].event)]
  {
    var kept, mine := Kept(j, id), Filed(j.outbox.events, j.filed, id);
    KeptIsFiltered(j, id);
    FiledAreListed(j.outbox.events, j.filed, EnqueuedOf(j.settlement.shared.emissions), id);
    assert RecordOf(mine[0], kept[0]) && RecordOf(mine[1], kept[1]);
    assert mine == [mine[0], mine[1]];
    listing := [mine[1], mine[0]];
    assert multiset(listing) == multiset(mine);
    SameMembers(listing, mine);
  }

  lemma {:induction false} SubsequenceOfSameLength<T>(a: seq<T>, b: seq<T>)
    requires |a| == |b| && IsSubsequence(a, b)
    ensures a == b
  {
    if a != [] {
      if a[0] == b[0] && IsSubsequence(a[1..], b[1..]) {
        SubsequenceOfSameLength(a[1..], b[1..]);
      } else {
        SubsequenceIsNoLonger(a, b[1..]);
      }
    }
  }

  lemma BackwardsIsNotHistory(trail: seq<PaymentStatus>, a: PaymentStatus, b: PaymentStatus)
    requires IsPath(trail) && IsSubsequence([a, b], trail)
    ensures !IsSubsequence([b, a], trail)
  {
    SubsequenceIsNoLonger([a, b], trail);
    SettlementLifecycle.PathShape(trail);
    SubsequenceOfSameLength([a, b], trail);
    PairInOrder([b, a], trail);
    assert Reversed([b, a]);
  }

  lemma KeptIsShort(w: World, j: Joint, id: Uuid)
    requires Reachable(w, j.settlement)
    ensures |Kept(j, id)| <= 2 && IsPath(Trail(j.settlement.shared.log, id))
  {
    ToldIsBounded(w, j.settlement, id, Detected);
    SettlementLifecycle.PathShape(Trail(j.settlement.shared.log, id));
    ToldIsMapped(j.settlement.shared.emissions, id);
  }

  /** Of two events kept, the one listing that has them backwards is not the history. */
  lemma BackwardsListing(j: Joint, id: Uuid) returns (listing: seq<WebhookRepository.EventRecord>)
    requires Stores(j.outbox.events, j.filed, EnqueuedOf(j.settlement.shared.emissions))
    requires |Kept(j, id)| <= 2 && !ClockMovesOn(j, id) && IsPath(Trail(j.settlement.shared.log, id))
    requires IsSubsequence(Map(Kept(j, id), EmissionStatus()), Trail(j.settlement.shared.log, id))
    ensures IsListing(j, id, listing) && !FollowsHistory(j, id, listing)
  {
    var kept := Kept(j, id);
    listing := TiesMayBeListedBackwards(j, id);
    var a, b := NamedStatus(kept[0].event), NamedStatus(kept[1].event);
    assert Map(kept, EmissionStatus()) == [a, b];
    BackwardsIsNotHistory(Trail(j.settlement.shared.log, id), a, b);
  }

  lemma TiesBreakHistory(w: World, now: Time, moves: seq<JointMove>, id: Uuid)
    returns (listing: seq<WebhookRepository.EventRecord>)
    requires IsJointRun(w, Started(now), moves) && !ClockMovesOn(AfterJoint(w, Started(now), moves), id)
    requires IsRun(w, Initial(now), SettlementMoves(moves)) && NoOvertaking(w, Initial(now), SettlementMoves(moves), id)
    ensures IsListing(AfterJoint(w, Started(now), moves), id, listing)
    ensures !FollowsHistory(AfterJoint(w, Started(now), moves), id, listing)
  {
    var j := AfterJoint(w, Started(now), moves);
    OutboxHoldsWhatWasEnqueued(w, now, moves);
    KeptIsShort(w, j, id);
    KeptFollowsHistory(w, now, moves, id);
    listing := BackwardsListing(j, id);
  }

  /**
   * With one worker, whatever is delivered in between: every answer
   * `list_for_payment` may give follows the payment's history if and only if
   * the clock moved on between the payment's enqueues.
   */
  lemma ListingFollowsHistory(w: World, now: Time, moves: seq<JointMove>, id: Uuid)
    requires IsJointRun(w, Started(now), moves)
    requires SettlementOrder.OneWorker(AfterJoint(w, Started(now), moves).settlement)
    ensures
      var j := AfterJoint(w, Started(now), moves);
      (forall listing :: IsListing(j, id, listing) ==> FollowsHistory(j, id, listing)) <==> ClockMovesOn(j, id)
  {
    var j := AfterJoint(w, Started(now), moves);
    JointRunIsASettlementRun(w, Started(now), moves);
    OneWorkerNeverOvertakes(w, Initial(now), SettlementMoves(moves), id);
    if ClockMovesOn(j, id) {
      forall listing | IsListing(j, id, listing) ensures FollowsHistory(j, id, listing) {
        ListingFollowsHistoryUnlessOvertaken(w, now, moves, id, listing);
      }
    } else {
      var listing := TiesBreakHistory(w, now, moves, id);
      assert IsListing(j, id, listing) && !FollowsHistory(j, id, listing);
    }
  }
}
