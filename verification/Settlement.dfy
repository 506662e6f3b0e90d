/**
 * The settlement pipeline as one concurrent state machine over the Postgres
 * tables. Any number of reconciliation workers, creation requests and service
 * transitions run side by side; each is a small program counter, and each of
 * its steps is one table operation, one ledger query or one enqueue. Between
 * two steps of one actor anything may happen: other actors, new ledger
 * records, the passing of time.
 */
module Settlement {
  import opened Wrappers
  import opened Amounts
  import opened PaymentCore
  import opened PaymentTable
  import opened Horizon

  // === What does not change during a run

  /** The memo and the verdict of a transaction are fixed once it has a hash. */
  datatype World = World(memoOf: string -> Option<string>, successful: string -> bool, expiryWindow: nat)

  /** The longest window the clock library can represent: 2^63 - 1 milliseconds. */
  const LONGEST_WINDOW: Time := 0x7fff_ffff_ffff_ffff * 1000

  /** A window too long to represent counts as zero. */
  function EffectiveWindow(window: nat): Time {
    if window <= LONGEST_WINDOW then window else 0
  }

  /** So the configured window is the one that counts, up to 2^63 - 1 milliseconds; any age reaches a longer one. */
  lemma ReachesWindow(window: nat, age: Time)
    ensures age >= EffectiveWindow(window) <==>
      age >= if window <= 9_223_372_036_854_775_807_000 then window else 0
  {
  }

  function Expiry(w: World): Time {
    EffectiveWindow(w.expiryWindow)
  }

  // === What the actors share

  /** One successful status update, as history records it. */
  datatype Entry = Entry(id: Uuid, to: PaymentStatus, byWorker: bool, reported: bool, at: Time)

  /** One attempt to enqueue an event, and whether it reached the outbox. */
  datatype Emission = Emission(event: PaymentEvent, enqueued: bool, at: Time)

  /** What one creation request was told. */
  datatype Answer = Answer(key: Option<string>, result: Result<Payment, PaymentError>)

  datatype Shared = Shared(
    table: Table,
    ledger: seq<LedgerRecord>,
    now: Time,
    emissions: seq<Emission>,
    log: seq<Entry>,
    answers: seq<Answer>)

  // === Where an actor stands

  datatype Phase =
    | Fresh
    | Idle
    | Reviewing(todo: seq<Payment>)
    | Searching(payment: Payment, memo: string, todo: seq<Payment>)
    | Verifying(payment: Payment, txHash: string, todo: seq<Payment>)
    | Updating(payment: Payment, next: PaymentStatus, hash: Option<string>, todo: seq<Payment>)
    | Emitting(event: PaymentEvent, todo: seq<Payment>)
    | Creating(payment: Payment, key: Option<string>)
    | Inserting(payment: Payment, key: Option<string>)
    | Transitioning(id: Uuid, target: PaymentStatus, hash: Option<string>)
    | Done

  predicate IsWorker(phase: Phase) {
    phase.Idle? || phase.Reviewing? || phase.Searching? || phase.Verifying? || phase.Updating? || phase.Emitting?
  }

  /** How the database may answer a write: as computed, refused, or done but with the reply lost. */
  datatype Reply = Replied | Refused | ReplyLost

  datatype Action =
    | StartWorker
    | List(snapshot: seq<Payment>)
    | Take
    | Search(pageFails: bool, failing: set<string>)
    | Verify(fails: bool)
    | Update(reply: Reply)
    | Emit(succeeds: bool)
    | Finish
    | StartCreate(payment: Payment, key: Option<string>)
    | FindKey(fails: bool)
    | Insert(reply: Reply)
    | StartTransition(id: Uuid, target: PaymentStatus, hash: Option<string>)
    | Commit(reply: Reply)

  // === The steps

  function Lookup(w: World, failing: set<string>): MemoLookup {
    (hash: string) => if hash in failing then Err(Request) else Ok(w.memoOf(hash))
  }

  function EventFor(status: PaymentStatus, payment: Payment): PaymentEvent {
    match status
    case Pending => PaymentCreated(payment)
    case Detected => PaymentDetected(payment)
    case Confirmed => PaymentConfirmed(payment)
    case Failed => PaymentFailed(payment)
    case Expired => PaymentExpired(payment)
  }

  /** The next payment of the snapshot, judged by the status the snapshot shows. */
  function Judge(expiry: Time, now: Time, p: Payment, rest: seq<Payment>): Phase {
    match p.status
    case Pending =>
      if now - p.createdAt >= expiry then Updating(p, Expired, None, rest)
      else if p.memo.None? then Reviewing(rest)
      else Searching(p, p.memo.value, rest)
    case Detected =>
      if p.txHash.None? then Reviewing(rest) else Verifying(p, p.txHash.value, rest)
    case _ => Reviewing(rest)
  }

  /** What the ledger's answer for a pending payment leads to; a failed query ends the pass. */
  function Searched(p: Payment, found: Result<Option<StellarPayment>, StellarError>, rest: seq<Payment>): Phase {
    match found
    case Err(_) => Idle
    case Ok(None) => Reviewing(rest)
    case Ok(Some(payment)) =>
      if AmountsMatch(p.amount, payment.amount) then Updating(p, Detected, Some(payment.transactionHash), rest)
      else Reviewing(rest)
  }

  /** What the verdict on a detected payment's transaction leads to. */
  function Verified(p: Payment, successful: Result<bool, StellarError>, rest: seq<Payment>): Phase {
    match successful
    case Err(_) => Idle
    case Ok(verdict) => Updating(p, if verdict then Confirmed else Failed, None, rest)
  }

  /** The newest match on the page the ledger shows at this moment. */
  function AskLedger(
    w: World, ledger: seq<LedgerRecord>, p: Payment, memo: string, pageFails: bool, failing: set<string>)
    : Result<Option<StellarPayment>, StellarError>
  {
    if pageFails then Err(Request)
    else Scan(Horizon.PageOf(ledger, p.destination), Query(p.destination, memo, p.createdAt), Lookup(w, failing))
  }

  /** The guarded update, and the history entry when it takes effect. */
  function Perform(sh: Shared, id: Uuid, next: PaymentStatus, hash: Option<string>, byWorker: bool, reported: bool)
    : (Shared, Result<Payment, RepositoryError>)
  {
    var (table, r) := UpdateStatus(sh.table, id, next, hash, sh.now);
    if r.Ok? then
      (sh.(table := table, log := sh.log + [Entry(id, next, byWorker, reported, sh.now)]), r)
    else (sh, r)
  }

  function Updated(sh: Shared, p: Payment, next: PaymentStatus, hash: Option<string>, rest: seq<Payment>, reply: Reply)
    : (Shared, Phase)
  {
    if reply.Refused? then (sh, Idle)
    else
      var (sh', r) := Perform(sh, p.id, next, hash, true, reply.Replied?);
      if r.Ok? && reply.Replied? then (sh', Emitting(EventFor(next, r.value), rest)) else (sh', Idle)
  }

  /** The enqueue: a failure is logged and forgotten. */
  function Emitted(sh: Shared, event: PaymentEvent, succeeds: bool): Shared {
    sh.(emissions := sh.emissions + [Emission(event, succeeds, sh.now)])
  }

  function Committed(sh: Shared, id: Uuid, target: PaymentStatus, hash: Option<string>, reply: Reply): Shared {
    if reply.Refused? then sh else Perform(sh, id, target, hash, false, reply.Replied?).0
  }

  function Tell(sh: Shared, key: Option<string>, result: Result<Payment, PaymentError>): Shared {
    sh.(answers := sh.answers + [Answer(key, result)])
  }

  function Looked(sh: Shared, p: Payment, key: Option<string>, fails: bool): (Shared, Phase) {
    if key.None? then (sh, Inserting(p, key))
    else if fails then (Tell(sh, key, Err(Repository(Database))), Done)
    else
      match FindByIdempotencyKey(sh.table, key.value)
      case Some(existing) => (Tell(sh, key, Ok(existing)), Done)
      case None => (sh, Inserting(p, key))
  }

  function Inserted(sh: Shared, p: Payment, key: Option<string>, reply: Reply): Shared {
    if reply.Refused? then Tell(sh, key, Err(Repository(Database)))
    else
      var (table, r) := Create(sh.table, p, key);
      var sh' := sh.(table := table);
      match r
      case Ok(created) => Tell(sh', key, if reply.Replied? then Ok(created) else Err(Repository(Database)))
      case Err(Conflict) => Tell(sh', key, Err(DuplicateReference(p.reference)))
      case Err(other) => Tell(sh', key, Err(Repository(other)))
  }

  ghost predicate Can(w: World, sh: Shared, phase: Phase, action: Action) {
    match action
    case StartWorker => phase.Fresh?
    case List(snapshot) => phase.Idle? && IsPendingList(sh.table, snapshot)
    case Take => phase.Reviewing? && phase.todo != []
    case Search(_, _) => phase.Searching?
    case Verify(_) => phase.Verifying?
    case Update(_) => phase.Updating?
    case Emit(_) => phase.Emitting?
    case Finish => phase.Reviewing? && phase.todo == []
    case StartCreate(p, key) =>
      phase.Fresh? && Valid(p.amount)
      && p == NewPayment(p.id, p.amount, p.reference, p.destination, p.memo, sh.now)
    case FindKey(_) => phase.Creating?
    case Insert(_) => phase.Inserting?
    case StartTransition(id, target, hash) =>
      // the early read: it may be stale by the time the update commits
      phase.Fresh? && HashGivenIffDetected(target, hash)
      && id in sh.table.rows && CanTransition(sh.table.rows[id].status, target)
    case Commit(_) => phase.Transitioning?
  }

  ghost function Act(w: World, sh: Shared, phase: Phase, action: Action): (Shared, Phase)
    requires Can(w, sh, phase, action)
  {
    match action
    case StartWorker => (sh, Idle)
    case List(snapshot) => (sh, Reviewing(snapshot))
    case Take => (sh, Judge(Expiry(w), sh.now, phase.todo[0], phase.todo[1..]))
    case Search(pageFails, failing) =>
      (sh, Searched(phase.payment, AskLedger(w, sh.ledger, phase.payment, phase.memo, pageFails, failing), phase.todo))
    case Verify(fails) =>
      (sh, Verified(phase.payment, if fails then Err(Request) else Ok(w.successful(phase.txHash)), phase.todo))
    case Update(reply) => Updated(sh, phase.payment, phase.next, phase.hash, phase.todo, reply)
    case Emit(succeeds) => (Emitted(sh, phase.event, succeeds), Reviewing(phase.todo))
    case Finish => (sh, Idle)
    case StartCreate(p, key) => (sh, Creating(p, key))
    case FindKey(fails) => Looked(sh, phase.payment, phase.key, fails)
    case Insert(reply) => (Inserted(sh, phase.payment, phase.key, reply), Done)
    case StartTransition(id, target, hash) => (sh, Transitioning(id, target, hash))
    case Commit(reply) => (Committed(sh, phase.id, phase.target, phase.hash, reply), Done)
  }

  // === Runs

  datatype State = State(shared: Shared, actors: map<nat, Phase>)

  datatype Move =
    | Tick(to: Time)
    | Append(record: LedgerRecord)
    | By(actor: nat, action: Action)

  function PhaseOf(s: State, actor: nat): Phase {
    if actor in s.actors then s.actors[actor] else Fresh
  }

  ghost predicate Enabled(w: World, s: State, move: Move) {
    match move
    case Tick(to) => to >= s.shared.now
    case Append(_) => true
    case By(actor, action) => Can(w, s.shared, PhaseOf(s, actor), action)
  }

  ghost function Step(w: World, s: State, move: Move): State
    requires Enabled(w, s, move)
  {
    match move
    case Tick(to) => s.(shared := s.shared.(now := to))
    case Append(record) => s.(shared := s.shared.(ledger := s.shared.ledger + [record]))
    case By(actor, action) =>
      var (shared, phase) := Act(w, s.shared, PhaseOf(s, actor), action);
      State(shared, s.actors[actor := phase])
  }

  function Initial(now: Time): State {
    State(Shared(EMPTY, [], now, [], [], []), map[])
  }

  ghost predicate IsRun(w: World, s: State, moves: seq<Move>)
    decreases |moves|
  {
    moves == [] || (Enabled(w, s, moves[0]) && IsRun(w, Step(w, s, moves[0]), moves[1..]))
  }

  /** The state a run ends in. */
  ghost function After(w: World, s: State, moves: seq<Move>): State
    requires IsRun(w, s, moves)
    decreases |moves|
  {
    if moves == [] then s else After(w, Step(w, s, moves[0]), moves[1..])
  }

  // === Interference

  /** What an actor may rely on between its own steps. */
  ghost predicate Later(a: Shared, b: Shared) {
    TableLater(a.table, b.table) && a.ledger <= b.ledger && a.now <= b.now
  }

  lemma LaterTransitive(a: Shared, b: Shared, c: Shared)
    requires Later(a, b) && Later(b, c)
    ensures Later(a, c)
  {
    TableLaterTransitive(a.table, b.table, c.table);
  }
}
