/**
 * One reconciliation pass over the in-memory repository, in place and without
 * interference, against a step that looks at one payment only.
 */
module ReconciliationWorker {
  import opened Wrappers
  import opened Collections
  import opened HashTable
  import opened Amounts
  import opened PaymentCore
  import opened PaymentRepository
  import opened Horizon
  import opened Settlement
  import WebhookRepository
  import WebhookService

  /** What the outside world answers when a payment's turn comes in the pass. */
  datatype Turn = Turn(
    now: Time,
    found: Result<Option<StellarPayment>, StellarError>,
    successful: Result<bool, StellarError>,
    updatedAt: Time,
    eventId: Uuid,
    emittedAt: Time)

  datatype PassError = LedgerUnavailable | UpdateRefused

  // === One payment

  /** Where a payment's turn ends: nothing to do, an update, or (Idle) the end of the pass. */
  function Decide(expiry: Time, p: Payment, turn: Turn): Phase {
    match Judge(expiry, turn.now, p, [])
    case Searching(_, _, _) => Searched(p, turn.found, [])
    case Verifying(_, _, _) => Verified(p, turn.successful, [])
    case decided => decided
  }

  predicate FailsAt(expiry: Time, p: Payment, turn: Turn) {
    Decide(expiry, p, turn).Idle?
  }

  /** The pure step: what a turn makes of its payment. */
  function Reconciled(expiry: Time, p: Payment, turn: Turn): Payment {
    match Decide(expiry, p, turn)
    case Updating(_, next, hash, _) => PaymentRepository.Moved(p, next, hash, turn.updatedAt)
    case _ => p
  }

  /** And the event it enqueues, if any. */
  function Notified(events: WebhookRepository.Events, expiry: Time, p: Payment, turn: Turn): WebhookRepository.Events {
    match Decide(expiry, p, turn)
    case Updating(_, next, _, _) =>
      var event := EventFor(next, Reconciled(expiry, p, turn));
      events[turn.eventId := WebhookRepository.NewRecord(turn.eventId, event, turn.emittedAt)]
    case _ => events
  }

  /** A turn advances its payment by at most one edge, and leaves a settled or expired one alone. */
  lemma AtMostOneEdge(expiry: Time, p: Payment, turn: Turn)
    ensures
      var p' := Reconciled(expiry, p, turn);
      && (p' == p || (CanTransition(p.status, p'.status) && p'.updatedAt == turn.updatedAt))
      && p' == p.(status := p'.status, txHash := p'.txHash, updatedAt := p'.updatedAt)
      && (IsTerminal(p.status) || FailsAt(expiry, p, turn) ==> p' == p)
  {
  }

  /** A turn that moves its payment enqueues one event, whose type spells out the new status; no other turn does. */
  lemma OneEventPerEdge(events: WebhookRepository.Events, expiry: Time, p: Payment, turn: Turn)
    ensures
      var p', events' := Reconciled(expiry, p, turn), Notified(events, expiry, p, turn);
      if p'.status == p.status then p' == p && events' == events
      else
        && turn.eventId in events' && events' == events[turn.eventId := events'[turn.eventId]]
        && var r := events'[turn.eventId];
           && r.eventType == "payment." + StatusText(p'.status)
           && r.payload.payment == p' && r.paymentId == p.id
           && WebhookRepository.WaitsFor(r, turn.emittedAt) && r.attempts == 0
  {
    var decided := Decide(expiry, p, turn);
    if decided.Updating? {
      TypeIsStatusText(EventFor(decided.next, Reconciled(expiry, p, turn)));
    }
  }

  /** What a turn decides for a Pending payment. */
  lemma DecidedPending(expiry: Time, p: Payment, turn: Turn)
    requires p.status.Pending?
    ensures
      var found := turn.found;
      Decide(expiry, p, turn) ==
        if turn.now - p.createdAt >= expiry then Updating(p, Expired, None, [])
        else if p.memo.None? then Reviewing([])
        else if found.Err? then Idle
        else if found.value.Some? && AmountsMatch(p.amount, found.value.value.amount)
          then Updating(p, Detected, Some(found.value.value.transactionHash), [])
        else Reviewing([])
  {
  }

  /** From Pending: expiry first, then a match of equal amount; a failed query ends the pass. */
  lemma EdgeFromPending(expiry: Time, p: Payment, turn: Turn)
    requires p.status.Pending?
    ensures
      var p' := Reconciled(expiry, p, turn);
      var stale := turn.now - p.createdAt >= expiry;
      var asks := !stale && p.memo.Some?;
      var pays := asks && turn.found.Ok? && turn.found.value.Some?
                  && AmountsMatch(p.amount, turn.found.value.value.amount);
      && p' == (if stale then p.(status := Expired, updatedAt := turn.updatedAt)
                else if pays then p.(status := Detected, txHash := Some(turn.found.value.value.transactionHash),
                                     updatedAt := turn.updatedAt)
                else p)
      && (FailsAt(expiry, p, turn) <==> asks && turn.found.Err?)
  {
    DecidedPending(expiry, p, turn);
  }

  /** From Detected: the verdict decides, and a failed query ends the pass. */
  lemma EdgeFromDetected(expiry: Time, p: Payment, turn: Turn)
    requires p.status.Detected?
    ensures
      var p' := Reconciled(expiry, p, turn);
      && p' == (if p.txHash.None? || turn.successful.Err? then p
                else p.(status := if turn.successful.value then Confirmed else Failed, updatedAt := turn.updatedAt))
      && (FailsAt(expiry, p, turn) <==> p.txHash.Some? && turn.successful.Err?)
  {
  }

  /** What the turn of a Pending payment leaves of it, by the configured window. */
  predicate PendingProcessed(p: Payment, after: Payment, window: nat, turn: Turn, failed: bool) {
    var stale := turn.now - p.createdAt >= if window <= 9_223_372_036_854_775_807_000 then window else 0;
    var asks := !stale && p.memo.Some?;
    var pays := asks && turn.found.Ok? && turn.found.value.Some?
                && AmountsMatch(p.amount, turn.found.value.value.amount);
    && (failed <==> asks && turn.found.Err?)
    && after ==
         if stale then p.(status := Expired, updatedAt := turn.updatedAt)
         else if pays then p.(status := Detected, txHash := Some(turn.found.value.value.transactionHash),
                              updatedAt := turn.updatedAt)
         else p
  }

  lemma PendingIsProcessed(p: Payment, window: nat, turn: Turn)
    requires p.status.Pending?
    ensures
      var expiry := EffectiveWindow(window);
      PendingProcessed(p, Reconciled(expiry, p, turn), window, turn, FailsAt(expiry, p, turn))
  {
    EdgeFromPending(EffectiveWindow(window), p, turn);
    ReachesWindow(window, turn.now - p.createdAt);
  }

  /** And the turn of a Detected one. */
  predicate DetectedProcessed(p: Payment, after: Payment, turn: Turn, failed: bool) {
    && (failed <==> p.txHash.Some? && turn.successful.Err?)
    && after ==
         if p.txHash.None? || turn.successful.Err? then p
         else p.(status := if turn.successful.value then Confirmed else Failed, updatedAt := turn.updatedAt)
  }

  // === The whole repository, pointwise

  type Turns = Uuid -> Turn

  /** Every payment in `done` has had its turn, the others are as they were. */
  function Pointwise(payments: map<Uuid, Payment>, expiry: Time, turns: Turns, done: set<Uuid>): map<Uuid, Payment> {
    map id | id in payments :: if id in done then Reconciled(expiry, payments[id], turns(id)) else payments[id]
  }

  function Ids(list: seq<Payment>): set<Uuid> {
    set p | p in list :: p.id
  }

  /** How many payments of the list have their turn before one ends the pass. */
  function Processed(list: seq<Payment>, expiry: Time, turns: Turns): (k: nat)
    ensures k <= |list|
    ensures forall i :: 0 <= i < k ==> !FailsAt(expiry, list[i], turns(list[i].id))
    ensures k < |list| ==> FailsAt(expiry, list[k], turns(list[k].id))
  {
    if list == [] || FailsAt(expiry, list[0], turns(list[0].id)) then 0
    else 1 + Processed(list[1..], expiry, turns)
  }

  /** None of the first `k` turns ends the pass. */
  predicate NoneFails(list: seq<Payment>, expiry: Time, turns: Turns, k: nat)
    requires k <= |list|
  {
    k == 0 || (NoneFails(list, expiry, turns, k - 1) && !FailsAt(expiry, list[k - 1], turns(list[k - 1].id)))
  }

  lemma {:induction false} NoFailureBefore(list: seq<Payment>, expiry: Time, turns: Turns, k: nat)
    requires k <= |list| && NoneFails(list, expiry, turns, k)
    ensures forall i :: 0 <= i < k ==> !FailsAt(expiry, list[i], turns(list[i].id))
  {
    if k > 0 {
      NoFailureBefore(list, expiry, turns, k - 1);
    }
  }

  lemma ProcessedIs(list: seq<Payment>, expiry: Time, turns: Turns, k: nat)
    requires k <= |list| && NoneFails(list, expiry, turns, k)
    requires k < |list| ==> FailsAt(expiry, list[k], turns(list[k].id))
    ensures Processed(list, expiry, turns) == k
  {
    NoFailureBefore(list, expiry, turns, k);
  }

  /** The outbox after the first `k` turns. */
  function NotifiedBy(events: WebhookRepository.Events, list: seq<Payment>, expiry: Time, turns: Turns, k: nat)
    : WebhookRepository.Events
    requires k <= |list|
  {
    if k == 0 then events
    else Notified(NotifiedBy(events, list, expiry, turns, k - 1), expiry, list[k - 1], turns(list[k - 1].id))
  }

  /** The payments after the first `k` turns, each written in place. */
  function TurnedBy(payments: map<Uuid, Payment>, list: seq<Payment>, expiry: Time, turns: Turns, k: nat)
    : map<Uuid, Payment>
    requires k <= |list|
  {
    if k == 0 then payments
    else
      var p := list[k - 1];
      TurnedBy(payments, list, expiry, turns, k - 1)[p.id := Reconciled(expiry, p, turns(p.id))]
  }

  lemma OneMoreTurn(payments: map<Uuid, Payment>, expiry: Time, turns: Turns, list: seq<Payment>, k: nat)
    requires k < |list| && list[k].id in payments && payments[list[k].id] == list[k]
    ensures
      var p := list[k];
      Pointwise(payments, expiry, turns, Ids(list[..k + 1]))
        == Pointwise(payments, expiry, turns, Ids(list[..k]))[p.id := Reconciled(expiry, p, turns(p.id))]
  {
    assert list[..k + 1] == list[..k] + [list[k]];
    assert Ids(list[..k + 1]) == Ids(list[..k]) + {list[k].id};
  }

  lemma NobodyTurned(payments: map<Uuid, Payment>, expiry: Time, turns: Turns)
    ensures Pointwise(payments, expiry, turns, {}) == payments
  {
  }

  /** Writing in place, one after the other, is the pointwise step on those who had their turn. */
  lemma {:induction false} InPlaceIsPointwise(
    payments: map<Uuid, Payment>, list: seq<Payment>, expiry: Time, turns: Turns, k: nat)
    requires k <= |list| && forall p :: p in list ==> p.id in payments && payments[p.id] == p
    ensures TurnedBy(payments, list, expiry, turns, k) == Pointwise(payments, expiry, turns, Ids(list[..k]))
  {
    if k == 0 {
      assert Ids(list[..0]) == {};
      NobodyTurned(payments, expiry, turns);
    } else {
      assert list[k - 1] in list;
      InPlaceIsPointwise(payments, list, expiry, turns, k - 1);
      OneMoreTurn(payments, expiry, turns, list, k - 1);
    }
  }

  /** Writing one payment in place leaves another as it is. */
  lemma OtherStays(payments: map<Uuid, Payment>, written: Uuid, p: Payment, id: Uuid)
    requires id in payments && id != written
    ensures id in payments[written := p] && payments[written := p][id] == payments[id]
  {
  }

  lemma DifferentIds(payments: map<Uuid, Payment>, list: seq<Payment>, i: nat, j: nat)
    requires i < j < |list| && NoDuplicates(list) && forall p :: p in list ==> p.id in payments && payments[p.id] == p
    ensures list[i].id != list[j].id
  {
    DistinctIndices(list, i, j);
    assert list[i] in list && list[j] in list;
  }

  /** A snapshot is still what the repository holds when its turn comes. */
  lemma {:induction false} NotYetDone(
    payments: map<Uuid, Payment>, list: seq<Payment>, expiry: Time, turns: Turns, k: nat, j: nat)
    requires k <= j < |list| && NoDuplicates(list)
    requires forall p :: p in list ==> p.id in payments && payments[p.id] == p
    ensures list[j].id in TurnedBy(payments, list, expiry, turns, k)
    ensures TurnedBy(payments, list, expiry, turns, k)[list[j].id] == list[j]
  {
    if k == 0 {
      assert list[j] in list;
    } else {
      var p := list[k - 1];
      NotYetDone(payments, list, expiry, turns, k - 1, j);
      DifferentIds(payments, list, k - 1, j);
      OtherStays(TurnedBy(payments, list, expiry, turns, k - 1), p.id, Reconciled(expiry, p, turns(p.id)), list[j].id);
    }
  }

  /** One turn in place: the snapshot is current, and a turn that ends the pass changes nothing. */
  lemma OneTurn(
    payments: map<Uuid, Payment>, events: WebhookRepository.Events, list: seq<Payment>, expiry: Time, turns: Turns,
    k: nat)
    requires k < |list| && NoDuplicates(list)
    requires forall p :: p in list ==> p.id in payments && payments[p.id] == p
    ensures
      var before, noticed := TurnedBy(payments, list, expiry, turns, k), NotifiedBy(events, list, expiry, turns, k);
      var p, turn := list[k], turns(list[k].id);
      && p.id in before && before[p.id] == p
      && TurnedBy(payments, list, expiry, turns, k + 1) == before[p.id := Reconciled(expiry, p, turn)]
      && NotifiedBy(events, list, expiry, turns, k + 1) == Notified(noticed, expiry, p, turn)
      && (FailsAt(expiry, p, turn) ==>
            TurnedBy(payments, list, expiry, turns, k + 1) == before
            && NotifiedBy(events, list, expiry, turns, k + 1) == noticed)
  {
    NotYetDone(payments, list, expiry, turns, k, k);
  }

  /** A pass nobody ends early is the pure step applied to every payment of the repository. */
  lemma UndisturbedPassIsPointwise(payments: map<Uuid, Payment>, list: seq<Payment>, expiry: Time, turns: Turns)
    requires ListsOnce(list, payments, IdOf(), Active()) && KeyedBy(payments, IdOf())
    requires Processed(list, expiry, turns) == |list|
    ensures Pointwise(payments, expiry, turns, Ids(list)) == Pointwise(payments, expiry, turns, payments.Keys)
  {
    forall id | id in payments && id !in Ids(list)
      ensures Reconciled(expiry, payments[id], turns(id)) == payments[id]
    {
      assert IdOf()(payments[id]) == id;
      assert payments[id] !in list;
      AtMostOneEdge(expiry, payments[id], turns(id));
    }
  }

  // === The worker

  class ReconciliationWorker {
    const repository: InMemoryPaymentRepository
    const webhooks: WebhookService.WebhookService
    const expiryWindow: nat

    constructor (repository: InMemoryPaymentRepository, webhooks: WebhookService.WebhookService, expiryWindow: nat)
      ensures this.repository == repository && this.webhooks == webhooks && this.expiryWindow == expiryWindow
    {
      this.repository := repository;
      this.webhooks := webhooks;
      this.expiryWindow := expiryWindow;
    }

    ghost predicate Valid()
      reads this, repository, webhooks, webhooks.repository
    {
      repository.Valid() && webhooks.repository.Valid()
    }

    method RunOnce(turns: Turns) returns (r: Result<(), PassError>, ghost pending: seq<Payment>)
      requires Valid()
      modifies repository`payments, webhooks.repository
      ensures Valid()
      ensures ListsOnce(pending, old(repository.payments), IdOf(), Active())
      ensures forall p :: p in pending <==>
        && p.id in old(repository.payments) && old(repository.payments)[p.id] == p
        && (p.status == Pending || p.status == Detected)
      ensures forall i, j :: 0 <= i < j < |pending| ==> pending[i].createdAt <= pending[j].createdAt
      ensures
        var expiry := EffectiveWindow(expiryWindow);
        var k := Processed(pending, expiry, turns);
        && (r.Ok? <==> k == |pending|)
        && repository.payments == Pointwise(old(repository.payments), expiry, turns, Ids(pending[..k]))
        && webhooks.repository.events == NotifiedBy(old(webhooks.repository.events), pending, expiry, turns, k)
    {
      var list := repository.ListPendingForReconciliation();
      pending := list;
      InPlaceIsPointwise(repository.payments, list, EffectiveWindow(expiryWindow), turns,
                         Processed(list, EffectiveWindow(expiryWindow), turns));
      r := Review(list, turns);
    }

    /** The loop over the listed payments. */
    method Review(list: seq<Payment>, turns: Turns) returns (r: Result<(), PassError>)
      requires Valid()
      requires NoDuplicates(list)
      requires forall p :: p in list ==> p.id in repository.payments && repository.payments[p.id] == p
      modifies repository`payments, webhooks.repository
      ensures Valid()
      ensures
        var expiry := EffectiveWindow(expiryWindow);
        var k := Processed(list, expiry, turns);
        && (r.Ok? <==> k == |list|)
        && repository.payments == TurnedBy(old(repository.payments), list, expiry, turns, k)
        && webhooks.repository.events == NotifiedBy(old(webhooks.repository.events), list, expiry, turns, k)
    {
      var i := 0;
      while i < |list|
        invariant 0 <= i <= |list|
        invariant Valid()
        invariant Progress(old(repository.payments), old(webhooks.repository.events), list, turns, i)
      {
        var turned := TakeTurn(list, turns, i, old(repository.payments), old(webhooks.repository.events));
        if turned.Err? {
          ProcessedIs(list, EffectiveWindow(expiryWindow), turns, i);
          return turned;
        }
        i := i + 1;
      }
      ProcessedIs(list, EffectiveWindow(expiryWindow), turns, i);
      return Ok(());
    }

    /** Where a pass stands after its first `k` turns. */
    ghost predicate Progress(
      payments: map<Uuid, Payment>, events: WebhookRepository.Events, list: seq<Payment>, turns: Turns, k: nat)
      requires k <= |list|
      reads this, repository, webhooks, webhooks.repository
    {
      && repository.payments == TurnedBy(payments, list, EffectiveWindow(expiryWindow), turns, k)
      && webhooks.repository.events == NotifiedBy(events, list, EffectiveWindow(expiryWindow), turns, k)
      && NoneFails(list, EffectiveWindow(expiryWindow), turns, k)
    }

    method TakeTurn(
      list: seq<Payment>, turns: Turns, k: nat,
      ghost payments: map<Uuid, Payment>, ghost events: WebhookRepository.Events)
      returns (r: Result<(), PassError>)
      requires Valid() && k < |list| && NoDuplicates(list)
      requires forall p :: p in list ==> p.id in payments && payments[p.id] == p
      requires Progress(payments, events, list, turns, k)
      modifies repository`payments, webhooks.repository
      ensures Valid()
      ensures r.Ok? ==> Progress(payments, events, list, turns, k + 1)
      ensures r.Err? ==> Progress(payments, events, list, turns, k)
      ensures r.Err? ==> FailsAt(EffectiveWindow(expiryWindow), list[k], turns(list[k].id))
    {
      OneTurn(payments, events, list, EffectiveWindow(expiryWindow), turns, k);
      r := Process(list[k], turns(list[k].id));
    }

    /** The branch on the status the snapshot shows. */
    method Process(payment: Payment, turn: Turn) returns (r: Result<(), PassError>)
      requires Valid()
      requires payment.id in repository.payments && repository.payments[payment.id] == payment
      modifies repository`payments, webhooks.repository
      ensures Valid()
      ensures r.Err? <==> FailsAt(EffectiveWindow(expiryWindow), payment, turn)
      ensures repository.payments
        == old(repository.payments)[payment.id := Reconciled(EffectiveWindow(expiryWindow), payment, turn)]
      ensures webhooks.repository.events
        == Notified(old(webhooks.repository.events), EffectiveWindow(expiryWindow), payment, turn)
    {
      match payment.status
      case Pending => r := ProcessPending(payment, turn);
      case Detected => r := ProcessDetected(payment, turn);
      case _ => r := Ok(());
    }

    /** The event is the one of `OneEventPerEdge`. */
    method ProcessPending(payment: Payment, turn: Turn) returns (r: Result<(), PassError>)
      requires Valid() && payment.status.Pending?
      requires payment.id in repository.payments && repository.payments[payment.id] == payment
      modifies repository`payments, webhooks.repository
      ensures Valid()
      ensures payment.id in repository.payments
      ensures PendingProcessed(payment, repository.payments[payment.id], expiryWindow, turn, r.Err?)
      ensures r.Err? <==> FailsAt(EffectiveWindow(expiryWindow), payment, turn)
      ensures repository.payments
        == old(repository.payments)[payment.id := Reconciled(EffectiveWindow(expiryWindow), payment, turn)]
      ensures webhooks.repository.events
        == Notified(old(webhooks.repository.events), EffectiveWindow(expiryWindow), payment, turn)
    {
      PendingIsProcessed(payment, expiryWindow, turn);
      var age := turn.now - payment.createdAt;
      var expiry := EffectiveWindow(expiryWindow);
      if age >= expiry {
        r := Apply(payment, Expired, None, turn);
        return;
      }
      if payment.memo.None? {
        return Ok(());
      }
      if turn.found.Err? {
        return Err(LedgerUnavailable);
      }
      if turn.found.value.None? {
        return Ok(());
      }
      var found := turn.found.value.value;
      if !AmountsMatch(payment.amount, found.amount) {
        return Ok(());
      }
      r := Apply(payment, Detected, Some(found.transactionHash), turn);
    }

    method ProcessDetected(payment: Payment, turn: Turn) returns (r: Result<(), PassError>)
      requires Valid() && payment.status.Detected?
      requires payment.id in repository.payments && repository.payments[payment.id] == payment
      modifies repository`payments, webhooks.repository
      ensures Valid()
      ensures payment.id in repository.payments
      ensures DetectedProcessed(payment, repository.payments[payment.id], turn, r.Err?)
      ensures r.Err? <==> FailsAt(EffectiveWindow(expiryWindow), payment, turn)
      ensures repository.payments
        == old(repository.payments)[payment.id := Reconciled(EffectiveWindow(expiryWindow), payment, turn)]
      ensures webhooks.repository.events
        == Notified(old(webhooks.repository.events), EffectiveWindow(expiryWindow), payment, turn)
    {
      EdgeFromDetected(EffectiveWindow(expiryWindow), payment, turn);
      if payment.txHash.None? {
        return Ok(());
      }
      if turn.successful.Err? {
        return Err(LedgerUnavailable);
      }
      if turn.successful.value {
        r := Apply(payment, Confirmed, None, turn);
      } else {
        r := Apply(payment, Failed, None, turn);
      }
    }

    /** The guarded update, then the event for it. */
    method Apply(payment: Payment, next: PaymentStatus, hash: Option<string>, turn: Turn)
      returns (r: Result<(), PassError>)
      requires Valid() && CanTransition(payment.status, next)
      requires payment.id in repository.payments && repository.payments[payment.id] == payment
      modifies repository`payments, webhooks.repository
      ensures Valid() && r.Ok?
      ensures
        var moved := PaymentRepository.Moved(payment, next, hash, turn.updatedAt);
        && repository.payments == old(repository.payments)[payment.id := moved]
        && webhooks.repository.events == old(webhooks.repository.events)[turn.eventId :=
             WebhookRepository.NewRecord(turn.eventId, EventFor(next, moved), turn.emittedAt)]
    {
      var updated := repository.Update(payment.id, next, hash, turn.updatedAt);
      if updated.Err? {
        return Err(UpdateRefused);
      }
      webhooks.EnqueueEvent(turn.eventId, EventFor(next, updated.value), turn.emittedAt);
      return Ok(());
    }
  }
}
