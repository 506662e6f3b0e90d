/**
 * Safety of the settlement machine: what holds in every state any run can
 * reach, however stale the snapshots the workers act on.
 */
module SettlementSafety {
  import opened Wrappers
  import opened Decimals
  import opened Amounts
  import opened PaymentCore
  import opened PaymentTable
  import opened Horizon
  import opened Settlement

  // === Snapshots

  /** A snapshot of a payment and a later version of it. */
  predicate PaymentLater(a: Payment, b: Payment) {
    && b == a.(status := b.status, txHash := b.txHash, updatedAt := b.updatedAt)
    && StatusLater(a.status, b.status)
    && (!a.status.Pending? ==> b.txHash == a.txHash)
  }

  /** `p` is some earlier reading of a stored row. */
  predicate IsSnapshot(t: Table, p: Payment) {
    p.id in t.rows && PaymentLater(p, FromRow(t.rows[p.id])) && (p.txHash.Some? || !p.status.Detected?)
  }

  lemma SnapshotStable(a: Table, b: Table, p: Payment)
    requires TableLater(a, b) && IsSnapshot(a, p)
    ensures IsSnapshot(b, p)
  {
    assert RowLater(a.rows[p.id], b.rows[p.id]);
  }

  // === Evidence

  /** This ledger record pays this payment, in the transaction with this hash. */
  predicate Backs(w: World, r: LedgerRecord, p: Payment, txHash: string) {
    && r.paymentType == "payment"
    && r.transactionHash == txHash
    && r.to == Some(p.destination)
    && p.memo.Some? && w.memoOf(txHash) == p.memo
    && r.createdAt >= p.createdAt
    && AmountsMatch(p.amount, OrEmpty(r.amount))
  }

  ghost predicate Backed(w: World, ledger: seq<LedgerRecord>, p: Payment, txHash: string) {
    exists r :: r in ledger && Backs(w, r, p, txHash)
  }

  // === What each phase knows

  ghost predicate TodoOk(t: Table, todo: seq<Payment>) {
    forall p :: p in todo ==> IsSnapshot(t, p)
  }

  /** What a worker established before it asks for the update. */
  ghost predicate Justified(w: World, sh: Shared, p: Payment, next: PaymentStatus, hash: Option<string>) {
    match next
    case Pending => false
    case Expired => p.status.Pending? && hash.None? && sh.now - p.createdAt >= Expiry(w)
    case Detected => p.status.Pending? && hash.Some? && Backed(w, sh.ledger, p, hash.value)
    case Confirmed => p.status.Detected? && hash.None? && p.txHash.Some? && w.successful(p.txHash.value)
    case Failed => p.status.Detected? && hash.None? && p.txHash.Some? && !w.successful(p.txHash.value)
  }

  predicate EventOk(t: Table, event: PaymentEvent) {
    !event.PaymentCreated? && NamedStatus(event) == event.payment.status && IsSnapshot(t, event.payment)
  }

  ghost predicate PhaseOk(w: World, sh: Shared, phase: Phase) {
    match phase
    case Reviewing(todo) => TodoOk(sh.table, todo)
    case Searching(p, memo, todo) =>
      TodoOk(sh.table, todo) && IsSnapshot(sh.table, p) && p.status.Pending? && p.memo == Some(memo)
    case Verifying(p, txHash, todo) =>
      TodoOk(sh.table, todo) && IsSnapshot(sh.table, p) && p.status.Detected? && p.txHash == Some(txHash)
    case Updating(p, next, hash, todo) =>
      TodoOk(sh.table, todo) && IsSnapshot(sh.table, p) && Justified(w, sh, p, next, hash)
    case Emitting(event, todo) => TodoOk(sh.table, todo) && EventOk(sh.table, event)
    case Creating(p, _) => p.status.Pending? && p.txHash.None? && Valid(p.amount)
    case Inserting(p, _) => p.status.Pending? && p.txHash.None? && Valid(p.amount)
    case Transitioning(_, target, hash) => HashGivenIffDetected(target, hash)
    case _ => true
  }

  lemma PhaseStable(w: World, a: Shared, b: Shared, phase: Phase)
    requires Later(a, b) && PhaseOk(w, a, phase)
    ensures PhaseOk(w, b, phase)
  {
    forall p | IsSnapshot(a.table, p) ensures IsSnapshot(b.table, p) {
      SnapshotStable(a.table, b.table, p);
    }
    assert forall r :: r in a.ledger ==> r in b.ledger;
  }

  // === What the shared state keeps

  ghost predicate TableOk(t: Table) {
    Constrained(t) && forall id :: id in t.rows ==> HashMatchesStatus(t.rows[id]) && t.rows[id].amount > 0
  }

  /** Some service call, not a worker, moved this payment. */
  ghost predicate Touched(log: seq<Entry>, id: Uuid) {
    exists e :: e in log && e.id == id && !e.byWorker
  }

  ghost predicate RowBacked(w: World, ledger: seq<LedgerRecord>, row: Row) {
    && (row.txHash.Some? ==> Backed(w, ledger, FromRow(row), row.txHash.value))
    && (row.txHash.Some? && row.status.Confirmed? ==> w.successful(row.txHash.value))
    && (row.txHash.Some? && row.status.Failed? ==> !w.successful(row.txHash.value))
  }

  ghost predicate EvidenceOk(w: World, sh: Shared) {
    forall id :: id in sh.table.rows && !Touched(sh.log, id) ==> RowBacked(w, sh.ledger, sh.table.rows[id])
  }

  /** The statuses a payment moved to, in order. */
  function Trail(log: seq<Entry>, id: Uuid): seq<PaymentStatus> {
    if log == [] then []
    else
      var last := log[|log| - 1];
      Trail(log[..|log| - 1], id) + if last.id == id then [last.to] else []
  }

  function EndOf(trail: seq<PaymentStatus>): PaymentStatus {
    if trail == [] then Pending else trail[|trail| - 1]
  }

  /** Every step of the trail is a transition, starting from Pending. */
  predicate IsPath(trail: seq<PaymentStatus>) {
    forall i :: 0 <= i < |trail| ==> CanTransition(EndOf(trail[..i]), trail[i])
  }

  /** The trail of a payment that exists is a path to the status it has now. */
  ghost predicate HistoryOk(sh: Shared) {
    && (forall e :: e in sh.log ==> e.id in sh.table.rows)
    && (forall id :: id in sh.table.rows ==>
          IsPath(Trail(sh.log, id)) && EndOf(Trail(sh.log, id)) == sh.table.rows[id].status)
  }

  predicate OldEnough(w: World, t: Table, e: Entry) {
    e.byWorker && e.to.Expired? && e.id in t.rows ==> e.at - t.rows[e.id].createdAt >= Expiry(w)
  }

  ghost predicate ExpiriesOk(w: World, sh: Shared) {
    forall e :: e in sh.log ==> OldEnough(w, sh.table, e)
  }

  predicate AnswerOk(t: Table, answer: Answer) {
    answer.result.Ok? ==>
      && answer.result.value.id in t.rows
      && (answer.key.Some? ==> answer.key.value in t.keys && t.keys[answer.key.value] == answer.result.value.id)
  }

  ghost predicate AnswersOk(sh: Shared) {
    forall answer :: answer in sh.answers ==> AnswerOk(sh.table, answer)
  }

  ghost predicate EmissionsOk(sh: Shared) {
    forall m :: m in sh.emissions ==> EventOk(sh.table, m.event)
  }

  ghost predicate SharedOk(w: World, sh: Shared) {
    && TableOk(sh.table)
    && EvidenceOk(w, sh)
    && HistoryOk(sh)
    && ExpiriesOk(w, sh)
    && AnswersOk(sh)
    && EmissionsOk(sh)
  }

  ghost predicate Inv(w: World, s: State) {
    SharedOk(w, s.shared) && forall a :: a in s.actors ==> PhaseOk(w, s.shared, s.actors[a])
  }

  /** A step that leaves everything as it should be. */
  ghost predicate Keeps(w: World, sh: Shared, next: (Shared, Phase)) {
    Later(sh, next.0) && SharedOk(w, next.0) && PhaseOk(w, next.0, next.1)
  }

  // === A successful update, conjunct by conjunct

  lemma PerformIsLater(sh: Shared, id: Uuid, next: PaymentStatus, hash: Option<string>, byWorker: bool, reported: bool)
    requires HashGivenIffDetected(next, hash)
    ensures Later(sh, Perform(sh, id, next, hash, byWorker, reported).0)
  {
    UpdateMovesOneRow(sh.table, id, next, hash, sh.now);
  }

  lemma PerformKeepsTable(
    sh: Shared, id: Uuid, next: PaymentStatus, hash: Option<string>, byWorker: bool, reported: bool)
    requires TableOk(sh.table) && HashGivenIffDetected(next, hash)
    ensures TableOk(Perform(sh, id, next, hash, byWorker, reported).0.table)
  {
    UpdateKeepsConstraints(sh.table, id, next, hash, sh.now);
  }

  lemma TrailExtends(log: seq<Entry>, e: Entry, id: Uuid)
    ensures Trail(log + [e], id) == Trail(log, id) + if e.id == id then [e.to] else []
  {
    assert (log + [e])[..|log|] == log;
  }

  lemma PathExtends(trail: seq<PaymentStatus>, next: PaymentStatus)
    requires IsPath(trail) && CanTransition(EndOf(trail), next)
    ensures IsPath(trail + [next]) && EndOf(trail + [next]) == next
  {
    var longer := trail + [next];
    forall i | 0 <= i < |longer| ensures CanTransition(EndOf(longer[..i]), longer[i]) {
      assert longer[..i] == trail[..i];
      assert trail[..|trail|] == trail;
    }
  }

  lemma PerformKeepsHistory(
    sh: Shared, id: Uuid, next: PaymentStatus, hash: Option<string>, byWorker: bool, reported: bool)
    requires HistoryOk(sh)
    ensures HistoryOk(Perform(sh, id, next, hash, byWorker, reported).0)
  {
    var (sh', r) := Perform(sh, id, next, hash, byWorker, reported);
    if r.Ok? {
      var e := sh'.log[|sh.log|];
      assert sh'.log == sh.log + [e];
      forall other | other in sh'.table.rows
        ensures IsPath(Trail(sh'.log, other)) && EndOf(Trail(sh'.log, other)) == sh'.table.rows[other].status
      {
        TrailExtends(sh.log, e, other);
        if other == id {
          PathExtends(Trail(sh.log, id), next);
        } else {
          assert Trail(sh'.log, other) == Trail(sh.log, other);
        }
      }
    }
  }

  /** The columns evidence speaks of never change. */
  lemma BackedIsAboutFixedColumns(w: World, ledger: seq<LedgerRecord>, a: Payment, b: Payment, txHash: string)
    requires PaymentLater(a, b)
    ensures Backed(w, ledger, a, txHash) <==> Backed(w, ledger, b, txHash)
  {
    assert forall r :: Backs(w, r, a, txHash) <==> Backs(w, r, b, txHash);
  }

  lemma WorkerUpdateKeepsEvidence(
    w: World, sh: Shared, p: Payment, next: PaymentStatus, hash: Option<string>, reported: bool)
    requires EvidenceOk(w, sh) && IsSnapshot(sh.table, p) && Justified(w, sh, p, next, hash)
    ensures EvidenceOk(w, Perform(sh, p.id, next, hash, true, reported).0)
  {
    var (sh', r) := Perform(sh, p.id, next, hash, true, reported);
    if r.Ok? {
      var before, after := sh.table.rows[p.id], sh'.table.rows[p.id];
      forall e | e in sh.log ensures e in sh'.log {
      }
      assert forall id :: Touched(sh.log, id) ==> Touched(sh'.log, id);
      if !Touched(sh'.log, p.id) {
        assert RowBacked(w, sh.ledger, before);
        BackedIsAboutFixedColumns(w, sh.ledger, FromRow(before), FromRow(after), OrEmpty(after.txHash));
        BackedIsAboutFixedColumns(w, sh.ledger, p, FromRow(before), OrEmpty(after.txHash));
      }
    }
  }

  lemma ServiceUpdateKeepsEvidence(
    w: World, sh: Shared, id: Uuid, next: PaymentStatus, hash: Option<string>, reported: bool)
    requires EvidenceOk(w, sh)
    ensures EvidenceOk(w, Perform(sh, id, next, hash, false, reported).0)
  {
    var (sh', r) := Perform(sh, id, next, hash, false, reported);
    if r.Ok? {
      assert sh'.log[|sh.log|] in sh'.log;
      assert Touched(sh'.log, id);
      assert forall e :: e in sh.log ==> e in sh'.log;
      assert forall other :: Touched(sh.log, other) ==> Touched(sh'.log, other);
    }
  }

  lemma WorkerUpdateKeepsExpiries(
    w: World, sh: Shared, p: Payment, next: PaymentStatus, hash: Option<string>, reported: bool)
    requires ExpiriesOk(w, sh) && HistoryOk(sh) && IsSnapshot(sh.table, p) && Justified(w, sh, p, next, hash)
    ensures ExpiriesOk(w, Perform(sh, p.id, next, hash, true, reported).0)
  {
  }

  lemma ServiceUpdateKeepsExpiries(
    w: World, sh: Shared, id: Uuid, next: PaymentStatus, hash: Option<string>, reported: bool)
    requires ExpiriesOk(w, sh) && HistoryOk(sh)
    ensures ExpiriesOk(w, Perform(sh, id, next, hash, false, reported).0)
  {
  }

  lemma AnswersStable(a: Shared, b: Shared)
    requires AnswersOk(a) && TableLater(a.table, b.table) && a.answers == b.answers
    ensures AnswersOk(b)
  {
    forall answer | answer in b.answers ensures AnswerOk(b.table, answer) {
      assert AnswerOk(a.table, answer);
    }
  }

  lemma EmissionsStable(a: Shared, b: Shared)
    requires EmissionsOk(a) && TableLater(a.table, b.table) && a.emissions == b.emissions
    ensures EmissionsOk(b)
  {
    forall m | m in b.emissions ensures EventOk(b.table, m.event) {
      assert EventOk(a.table, m.event);
      SnapshotStable(a.table, b.table, m.event.payment);
    }
  }

  /** What a successful update keeps whoever asks for it. */
  lemma AnyUpdateOk(sh: Shared, id: Uuid, next: PaymentStatus, hash: Option<string>, byWorker: bool, reported: bool)
    requires TableOk(sh.table) && HistoryOk(sh) && AnswersOk(sh) && EmissionsOk(sh)
    requires HashGivenIffDetected(next, hash)
    ensures
      var sh' := Perform(sh, id, next, hash, byWorker, reported).0;
      Later(sh, sh') && TableOk(sh'.table) && HistoryOk(sh') && AnswersOk(sh') && EmissionsOk(sh')
  {
    var sh' := Perform(sh, id, next, hash, byWorker, reported).0;
    PerformIsLater(sh, id, next, hash, byWorker, reported);
    PerformKeepsTable(sh, id, next, hash, byWorker, reported);
    PerformKeepsHistory(sh, id, next, hash, byWorker, reported);
    AnswersStable(sh, sh');
    EmissionsStable(sh, sh');
  }

  lemma UpdatedPaymentIsASnapshot(sh: Shared, id: Uuid, next: PaymentStatus, hash: Option<string>, reported: bool)
    requires TableOk(sh.table) && HashGivenIffDetected(next, hash) && !next.Pending?
    requires Perform(sh, id, next, hash, true, reported).1.Ok?
    ensures
      var (sh', r) := Perform(sh, id, next, hash, true, reported);
      EventOk(sh'.table, EventFor(next, r.value))
  {
    var (sh', r) := Perform(sh, id, next, hash, true, reported);
    assert r.value == FromRow(sh'.table.rows[id]);
  }

  lemma UpdateActionOk(w: World, sh: Shared, phase: Phase, reply: Reply)
    requires SharedOk(w, sh) && PhaseOk(w, sh, phase) && phase.Updating?
    ensures Keeps(w, sh, Updated(sh, phase.payment, phase.next, phase.hash, phase.todo, reply))
  {
    if !reply.Refused? {
      var p, next, hash := phase.payment, phase.next, phase.hash;
      var reported := reply.Replied?;
      var (sh', r) := Perform(sh, p.id, next, hash, true, reported);
      AnyUpdateOk(sh, p.id, next, hash, true, reported);
      WorkerUpdateKeepsEvidence(w, sh, p, next, hash, reported);
      WorkerUpdateKeepsExpiries(w, sh, p, next, hash, reported);
      PhaseStable(w, sh, sh', Reviewing(phase.todo));
      if r.Ok? {
        UpdatedPaymentIsASnapshot(sh, p.id, next, hash, reported);
      }
    }
  }

  lemma CommitActionOk(w: World, sh: Shared, phase: Phase, reply: Reply)
    requires SharedOk(w, sh) && PhaseOk(w, sh, phase) && phase.Transitioning?
    ensures Keeps(w, sh, (Committed(sh, phase.id, phase.target, phase.hash, reply), Done))
  {
    if !reply.Refused? {
      AnyUpdateOk(sh, phase.id, phase.target, phase.hash, false, reply.Replied?);
      ServiceUpdateKeepsEvidence(w, sh, phase.id, phase.target, phase.hash, reply.Replied?);
      ServiceUpdateKeepsExpiries(w, sh, phase.id, phase.target, phase.hash, reply.Replied?);
    }
  }

  // === Creation

  lemma {:induction false} NoTrail(log: seq<Entry>, id: Uuid)
    requires forall e :: e in log ==> e.id != id
    ensures Trail(log, id) == []
  {
    if log != [] {
      NoTrail(log[..|log| - 1], id);
      assert log[|log| - 1] in log;
    }
  }

  lemma CreatedIsPositive(t: Table, p: Payment, key: Option<string>)
    requires TableOk(t) && Valid(p.amount) && p.status.Pending? && p.txHash.None?
    ensures TableOk(Create(t, p, key).0)
  {
    CreateKeepsConstraints(t, p, key);
    UnitsAreTheValue(FromStr(p.amount).value);
  }

  lemma CreateKeepsShared(w: World, sh: Shared, p: Payment, key: Option<string>)
    requires SharedOk(w, sh) && Valid(p.amount) && p.status.Pending? && p.txHash.None?
    ensures
      var sh' := sh.(table := Create(sh.table, p, key).0);
      SharedOk(w, sh') && Later(sh, sh')
  {
    var sh' := sh.(table := Create(sh.table, p, key).0);
    CreatedIsPositive(sh.table, p, key);
    CreateOnlyAdds(sh.table, p, key);
    AnswersStable(sh, sh');
    EmissionsStable(sh, sh');
    if sh' != sh {
      NoTrail(sh.log, p.id);
    }
  }

  lemma CreatedAnswerOk(t: Table, p: Payment, key: Option<string>)
    requires TableOk(t)
    ensures
      var (t', r) := Create(t, p, key);
      r.Ok? ==> AnswerOk(t', Answer(key, Ok(r.value)))
  {
  }

  lemma TellOk(w: World, sh: Shared, key: Option<string>, result: Result<Payment, PaymentError>)
    requires SharedOk(w, sh) && AnswerOk(sh.table, Answer(key, result))
    ensures SharedOk(w, Tell(sh, key, result)) && Later(sh, Tell(sh, key, result))
  {
  }

  lemma InsertActionOk(w: World, sh: Shared, phase: Phase, reply: Reply)
    requires SharedOk(w, sh) && PhaseOk(w, sh, phase) && phase.Inserting?
    ensures Keeps(w, sh, (Inserted(sh, phase.payment, phase.key, reply), Done))
  {
    var p, key := phase.payment, phase.key;
    if reply.Refused? {
      TellOk(w, sh, key, Err(Repository(Database)));
    } else {
      var (table, r) := Create(sh.table, p, key);
      var mid := sh.(table := table);
      CreateKeepsShared(w, sh, p, key);
      CreatedAnswerOk(sh.table, p, key);
      var result :=
        match r
        case Ok(created) => if reply.Replied? then Ok(created) else Err(Repository(Database))
        case Err(Conflict) => Err(DuplicateReference(p.reference))
        case Err(other) => Err(Repository(other));
      TellOk(w, mid, key, result);
      LaterTransitive(sh, mid, Tell(mid, key, result));
    }
  }

  lemma FindActionOk(w: World, sh: Shared, phase: Phase, fails: bool)
    requires SharedOk(w, sh) && PhaseOk(w, sh, phase) && phase.Creating?
    ensures Keeps(w, sh, Looked(sh, phase.payment, phase.key, fails))
  {
    var key := phase.key;
    if key.Some? {
      if fails {
        TellOk(w, sh, key, Err(Repository(Database)));
      } else if key.value in sh.table.keys {
        var existing := FromRow(sh.table.rows[sh.table.keys[key.value]]);
        assert FindByIdempotencyKey(sh.table, key.value) == Some(existing);
        TellOk(w, sh, key, Ok(existing));
      }
    }
  }

  // === Looking

  lemma SearchActionOk(w: World, sh: Shared, phase: Phase, pageFails: bool, failing: set<string>)
    requires PhaseOk(w, sh, phase) && phase.Searching?
    ensures
      var found := AskLedger(w, sh.ledger, phase.payment, phase.memo, pageFails, failing);
      PhaseOk(w, sh, Searched(phase.payment, found, phase.todo))
  {
    var p, memo := phase.payment, phase.memo;
    var page := Horizon.PageOf(sh.ledger, p.destination);
    var query := Query(p.destination, memo, p.createdAt);
    var scan := Scan(page, query, Lookup(w, failing));
    if !pageFails && scan.Ok? && scan.value.Some? {
      var i := FoundIsAMatch(page, query, Lookup(w, failing));
      FeedMembers(sh.ledger, p.destination);
      var r := page[i];
      assert r in sh.ledger;
      if AmountsMatch(p.amount, scan.value.value.amount) {
        assert Backs(w, r, p, r.transactionHash);
      }
    }
  }

  lemma ListedAreSnapshots(sh: Shared, snapshot: seq<Payment>)
    requires TableOk(sh.table) && IsPendingList(sh.table, snapshot)
    ensures TodoOk(sh.table, snapshot)
  {
  }

  lemma TakeActionOk(w: World, sh: Shared, phase: Phase)
    requires PhaseOk(w, sh, phase) && phase.Reviewing? && phase.todo != []
    ensures PhaseOk(w, sh, Judge(Expiry(w), sh.now, phase.todo[0], phase.todo[1..]))
  {
    assert phase.todo[0] in phase.todo;
    assert TodoOk(sh.table, phase.todo[1..]);
  }

  /** A step that only decides what to do next. */
  lemma LocalActionOk(w: World, sh: Shared, phase: Phase, action: Action)
    requires TableOk(sh.table) && PhaseOk(w, sh, phase) && Can(w, sh, phase, action)
    requires !action.Update? && !action.FindKey? && !action.Insert? && !action.Commit? && !action.Emit?
    ensures Act(w, sh, phase, action).0 == sh && PhaseOk(w, sh, Act(w, sh, phase, action).1)
  {
    match action
    case List(snapshot) => ListedAreSnapshots(sh, snapshot);
    case Search(pageFails, failing) => SearchActionOk(w, sh, phase, pageFails, failing);
    case Take => TakeActionOk(w, sh, phase);
    case _ =>
  }

  lemma EmitActionOk(w: World, sh: Shared, phase: Phase, succeeds: bool)
    requires SharedOk(w, sh) && PhaseOk(w, sh, phase) && phase.Emitting?
    ensures Keeps(w, sh, (Emitted(sh, phase.event, succeeds), Reviewing(phase.todo)))
  {
  }

  /** Every action keeps the shared invariant and leaves its actor in a justified phase. */
  lemma ActOk(w: World, sh: Shared, phase: Phase, action: Action)
    requires SharedOk(w, sh) && PhaseOk(w, sh, phase) && Can(w, sh, phase, action)
    ensures Keeps(w, sh, Act(w, sh, phase, action))
  {
    match action
    case Update(reply) => UpdateActionOk(w, sh, phase, reply);
    case FindKey(fails) => FindActionOk(w, sh, phase, fails);
    case Insert(reply) => InsertActionOk(w, sh, phase, reply);
    case Commit(reply) => CommitActionOk(w, sh, phase, reply);
    case Emit(succeeds) => EmitActionOk(w, sh, phase, succeeds);
    case _ => LocalActionOk(w, sh, phase, action);
  }

  // === Every run

  lemma AppendOk(w: World, sh: Shared, record: LedgerRecord)
    requires SharedOk(w, sh)
    ensures SharedOk(w, sh.(ledger := sh.ledger + [record]))
  {
    assert forall r :: r in sh.ledger ==> r in sh.ledger + [record];
  }

  lemma StepOk(w: World, s: State, move: Move)
    requires Inv(w, s) && Enabled(w, s, move)
    ensures Inv(w, Step(w, s, move)) && Later(s.shared, Step(w, s, move).shared)
  {
    var s' := Step(w, s, move);
    match move {
      case Tick(to) =>
      case Append(record) => AppendOk(w, s.shared, record);
      case By(actor, action) => ActOk(w, s.shared, PhaseOf(s, actor), action);
    }
    forall a | a in s'.actors ensures PhaseOk(w, s'.shared, s'.actors[a]) {
      if a in s.actors {
        PhaseStable(w, s.shared, s'.shared, s.actors[a]);
      }
    }
  }

  lemma {:induction false} RunOk(w: World, s: State, moves: seq<Move>)
    requires Inv(w, s) && IsRun(w, s, moves)
    ensures Inv(w, After(w, s, moves)) && Later(s.shared, After(w, s, moves).shared)
    decreases |moves|
  {
    if moves != [] {
      var mid := Step(w, s, moves[0]);
      StepOk(w, s, moves[0]);
      RunOk(w, mid, moves[1..]);
      LaterTransitive(s.shared, mid.shared, After(w, s, moves).shared);
    }
  }

  ghost predicate Reachable(w: World, s: State) {
    exists now, moves :: IsRun(w, Initial(now), moves) && After(w, Initial(now), moves) == s
  }

  lemma ReachableOk(w: World, s: State)
    requires Reachable(w, s)
    ensures Inv(w, s)
  {
    var now, moves :| IsRun(w, Initial(now), moves) && After(w, Initial(now), moves) == s;
    RunOk(w, Initial(now), moves);
  }

  lemma {:induction false} RunExtends(w: World, s: State, moves: seq<Move>, move: Move)
    requires IsRun(w, s, moves) && Enabled(w, After(w, s, moves), move)
    ensures IsRun(w, s, moves + [move]) && After(w, s, moves + [move]) == Step(w, After(w, s, moves), move)
    decreases |moves|
  {
    if moves == [] {
      assert [move][1..] == [];
      assert [] + [move] == [move];
      assert IsRun(w, Step(w, s, move), []);
    } else {
      assert (moves + [move])[1..] == moves[1..] + [move];
      RunExtends(w, Step(w, s, moves[0]), moves[1..], move);
    }
  }

  lemma RunsReach(w: World, s: State, move: Move)
    requires Reachable(w, s) && Enabled(w, s, move)
    ensures Reachable(w, Step(w, s, move))
  {
    var now, moves :| IsRun(w, Initial(now), moves) && After(w, Initial(now), moves) == s;
    RunExtends(w, Initial(now), moves, move);
  }

  lemma InitialIsReachable(w: World, now: Time)
    ensures Reachable(w, Initial(now))
  {
    assert IsRun(w, Initial(now), []) && After(w, Initial(now), []) == Initial(now);
  }
}
