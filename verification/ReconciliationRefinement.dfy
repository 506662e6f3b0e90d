/**
 * The sequential pass and the concurrent machine are one protocol: left
 * undisturbed, a worker of the machine does to the constrained table what the
 * in-place loop does to the in-memory repository.
 */
module ReconciliationRefinement {
  import opened Wrappers
  import opened Collections
  import opened PaymentCore
  import opened PaymentTable
  import opened Horizon
  import opened Settlement
  import opened SettlementSafety
  import opened ReconciliationWorker
  import PaymentRepository

  // === Reaching one state from another

  ghost predicate Reaches(w: World, a: State, b: State) {
    exists moves :: IsRun(w, a, moves) && After(w, a, moves) == b
  }

  lemma ReachesSelf(w: World, s: State)
    ensures Reaches(w, s, s)
  {
    assert IsRun(w, s, []) && After(w, s, []) == s;
  }

  lemma ReachesOn(w: World, a: State, b: State, move: Move)
    requires Reaches(w, a, b) && Enabled(w, b, move)
    ensures Reaches(w, a, Step(w, b, move))
  {
    var moves :| IsRun(w, a, moves) && After(w, a, moves) == b;
    RunExtends(w, a, moves, move);
  }

  /** One step of an actor. */
  lemma Acts(w: World, s0: State, s: State, actor: nat, action: Action) returns (s': State)
    requires Reaches(w, s0, s) && Can(w, s.shared, PhaseOf(s, actor), action)
    ensures Reaches(w, s0, s')
    ensures (s'.shared, PhaseOf(s', actor)) == Act(w, s.shared, PhaseOf(s, actor), action)
  {
    ReachesOn(w, s0, s, By(actor, action));
    s' := Step(w, s, By(actor, action));
  }

  lemma Waits(w: World, s0: State, s: State, to: Time) returns (s': State)
    requires Reaches(w, s0, s) && s.shared.now <= to
    ensures Reaches(w, s0, s')
    ensures s' == s.(shared := s.shared.(now := to))
  {
    ReachesOn(w, s0, s, Tick(to));
    s' := Step(w, s, Tick(to));
  }

  // === One turn

  /** The turn's answers are ones the ledger as it stands may give, and its clock readings do not go back. */
  ghost predicate Answers(w: World, sh: Shared, p: Payment, turn: Turn) {
    && sh.now <= turn.now <= turn.updatedAt <= turn.emittedAt
    && (p.memo.Some? ==>
          exists pageFails, failing :: turn.found == AskLedger(w, sh.ledger, p, p.memo.value, pageFails, failing))
    && (p.txHash.Some? ==> turn.successful == Err(Request) || turn.successful == Ok(w.successful(p.txHash.value)))
  }

  function WithRest(phase: Phase, rest: seq<Payment>): Phase {
    match phase
    case Reviewing(_) => Reviewing(rest)
    case Searching(p, memo, _) => Searching(p, memo, rest)
    case Verifying(p, txHash, _) => Verifying(p, txHash, rest)
    case Updating(p, next, hash, _) => Updating(p, next, hash, rest)
    case other => other
  }

  lemma RestDoesNotMatter(expiry: Time, p: Payment, rest: seq<Payment>, turn: Turn)
    ensures Judge(expiry, turn.now, p, rest) == WithRest(Judge(expiry, turn.now, p, []), rest)
    ensures Searched(p, turn.found, rest) == WithRest(Searched(p, turn.found, []), rest)
    ensures Verified(p, turn.successful, rest) == WithRest(Verified(p, turn.successful, []), rest)
  {
  }

  /** The judged phase, and what follows once the ledger has answered. */
  lemma DecideByPhase(expiry: Time, p: Payment, rest: seq<Payment>, turn: Turn)
    ensures
      var judged := Judge(expiry, turn.now, p, rest);
      var decided := WithRest(Decide(expiry, p, turn), rest);
      && (judged.Searching? ==> judged.payment == p && p.memo == Some(judged.memo) && judged.todo == rest
                                && decided == Searched(p, turn.found, rest))
      && (judged.Verifying? ==> judged.payment == p && p.txHash == Some(judged.txHash) && judged.todo == rest
                                && decided == Verified(p, turn.successful, rest))
      && (!judged.Searching? && !judged.Verifying? ==> decided == judged)
  {
    RestDoesNotMatter(expiry, p, rest, turn);
  }

  /** The worker looks at the next payment, asks the ledger if it must, and settles on what to do. */
  lemma Decides(w: World, s0: State, s: State, actor: nat, p: Payment, rest: seq<Payment>, turn: Turn)
    returns (s': State)
    requires Reaches(w, s0, s) && PhaseOf(s, actor) == Reviewing([p] + rest) && Answers(w, s.shared, p, turn)
    ensures Reaches(w, s0, s')
    ensures s'.shared == s.shared.(now := turn.now)
    ensures PhaseOf(s', actor) == WithRest(Decide(Expiry(w), p, turn), rest)
  {
    s' := Waits(w, s0, s, turn.now);
    assert ([p] + rest)[0] == p && ([p] + rest)[1..] == rest;
    s' := Acts(w, s0, s', actor, Take);
    var phase := PhaseOf(s', actor);
    DecideByPhase(Expiry(w), p, rest, turn);
    if phase.Searching? {
      var pageFails, failing :| turn.found == AskLedger(w, s.shared.ledger, p, p.memo.value, pageFails, failing);
      s' := Acts(w, s0, s', actor, Search(pageFails, failing));
    } else if phase.Verifying? {
      s' := Acts(w, s0, s', actor, Verify(turn.successful.Err?));
    }
  }

  /** No other payment holds the hash the turn would store. */
  predicate HashFree(t: Table, expiry: Time, p: Payment, turn: Turn) {
    Decide(expiry, p, turn).Updating? ==> !HashTaken(t, p.id, Decide(expiry, p, turn).hash)
  }

  /** The event a turn enqueues. */
  function EventOf(expiry: Time, p: Payment, turn: Turn): seq<Emission> {
    match Decide(expiry, p, turn)
    case Updating(_, next, _, _) => [Emission(EventFor(next, Reconciled(expiry, p, turn)), true, turn.emittedAt)]
    case _ => []
  }

  lemma DecisionsAreLegal(expiry: Time, p: Payment, turn: Turn)
    requires Decide(expiry, p, turn).Updating?
    ensures
      var decided := Decide(expiry, p, turn);
      decided.payment == p && CanTransition(p.status, decided.next)
  {
  }

  /** The guarded update of a current snapshot takes effect, on its own row only. */
  lemma CurrentRowIsUpdated(t: Table, p: Payment, next: PaymentStatus, hash: Option<string>, now: Time)
    requires p.id in t.rows && FromRow(t.rows[p.id]) == p
    requires CanTransition(p.status, next) && !HashTaken(t, p.id, hash)
    ensures
      var (t', r) := UpdateStatus(t, p.id, next, hash, now);
      var moved := PaymentRepository.Moved(p, next, hash, now);
      r == Ok(moved) && Payments(t') == Payments(t)[p.id := moved]
  {
  }

  /** Then it updates, and enqueues the event. */
  lemma Carries(w: World, s0: State, s: State, actor: nat, p: Payment, rest: seq<Payment>, turn: Turn)
    returns (s': State)
    requires Reaches(w, s0, s) && s.shared.now == turn.now <= turn.updatedAt <= turn.emittedAt
    requires Decide(Expiry(w), p, turn).Updating?
    requires PhaseOf(s, actor) == WithRest(Decide(Expiry(w), p, turn), rest)
    requires p.id in s.shared.table.rows && FromRow(s.shared.table.rows[p.id]) == p
    requires HashFree(s.shared.table, Expiry(w), p, turn)
    ensures Reaches(w, s0, s') && PhaseOf(s', actor) == Reviewing(rest)
    ensures Payments(s'.shared.table) == Payments(s.shared.table)[p.id := Reconciled(Expiry(w), p, turn)]
    ensures s'.shared.emissions == s.shared.emissions + EventOf(Expiry(w), p, turn)
    ensures s'.shared.ledger == s.shared.ledger && s'.shared.now == turn.emittedAt
  {
    var decided := Decide(Expiry(w), p, turn);
    DecisionsAreLegal(Expiry(w), p, turn);
    s' := Waits(w, s0, s, turn.updatedAt);
    CurrentRowIsUpdated(s'.shared.table, p, decided.next, decided.hash, turn.updatedAt);
    s' := Acts(w, s0, s', actor, Update(Replied));
    s' := Waits(w, s0, s', turn.emittedAt);
    s' := Acts(w, s0, s', actor, Emit(true));
  }

  lemma NoUpdateNoChange(t: Table, emissions: seq<Emission>, expiry: Time, p: Payment, turn: Turn)
    requires p.id in t.rows && FromRow(t.rows[p.id]) == p && !Decide(expiry, p, turn).Updating?
    ensures Payments(t) == Payments(t)[p.id := Reconciled(expiry, p, turn)]
    ensures emissions == emissions + EventOf(expiry, p, turn)
    ensures Decide(expiry, p, turn) == Idle || Decide(expiry, p, turn) == Reviewing([])
  {
  }

  /** A whole turn of the machine is the pure step on that payment. */
  lemma TurnIsARun(w: World, s0: State, s: State, actor: nat, p: Payment, rest: seq<Payment>, turn: Turn)
    returns (s': State)
    requires Reaches(w, s0, s) && PhaseOf(s, actor) == Reviewing([p] + rest) && Answers(w, s.shared, p, turn)
    requires p.id in s.shared.table.rows && FromRow(s.shared.table.rows[p.id]) == p
    requires HashFree(s.shared.table, Expiry(w), p, turn)
    ensures Reaches(w, s0, s')
    ensures PhaseOf(s', actor) == if FailsAt(Expiry(w), p, turn) then Idle else Reviewing(rest)
    ensures Payments(s'.shared.table) == Payments(s.shared.table)[p.id := Reconciled(Expiry(w), p, turn)]
    ensures s'.shared.emissions == s.shared.emissions + EventOf(Expiry(w), p, turn)
    ensures s'.shared.ledger == s.shared.ledger && s'.shared.now <= turn.emittedAt
  {
    s' := Decides(w, s0, s, actor, p, rest, turn);
    if Decide(Expiry(w), p, turn).Updating? {
      s' := Carries(w, s0, s', actor, p, rest, turn);
    } else {
      NoUpdateNoChange(s.shared.table, s.shared.emissions, Expiry(w), p, turn);
    }
  }

  // === A whole pass

  /** The events the first `k` turns enqueue, in order. */
  function EventsOf(list: seq<Payment>, expiry: Time, turns: Turns, k: nat): seq<Emission>
    requires k <= |list|
  {
    if k == 0 then []
    else EventsOf(list, expiry, turns, k - 1) + EventOf(expiry, list[k - 1], turns(list[k - 1].id))
  }

  /** The second turn begins when the first is over. */
  predicate Follows(first: Turn, second: Turn) {
    first.emittedAt <= second.now
  }

  /** The ledger stands still during the pass, and the clock does not go back. */
  ghost predicate Undisturbed(w: World, sh: Shared, list: seq<Payment>, turns: Turns) {
    && (forall p {:trigger Answers(w, sh, p, turns(p.id))} :: p in list ==> Answers(w, sh, p, turns(p.id)))
    && (forall i, j {:trigger Follows(turns(list[i].id), turns(list[j].id))} ::
          0 <= i < j < |list| ==> Follows(turns(list[i].id), turns(list[j].id)))
  }

  /** The hash a turn stores, if it stores one. */
  function Offered(expiry: Time, p: Payment, turn: Turn): Option<string> {
    match Decide(expiry, p, turn)
    case Updating(_, _, hash, _) => hash
    case _ => None
  }

  ghost predicate AreCurrent(payments: map<Uuid, Payment>, list: seq<Payment>) {
    NoDuplicates(list) && forall p :: p in list ==> p.id in payments && payments[p.id] == p
  }

  // === Where a pass ends

  /** The hash a turn would store is another payment's already. */
  ghost predicate Clashes(payments: map<Uuid, Payment>, expiry: Time, p: Payment, turn: Turn) {
    && Offered(expiry, p, turn).Some?
    && exists id :: id in payments && id != p.id && payments[id].txHash == Offered(expiry, p, turn)
  }

  lemma ClashesIffTaken(t: Table, expiry: Time, p: Payment, turn: Turn)
    ensures Clashes(Payments(t), expiry, p, turn) <==> !HashFree(t, expiry, p, turn)
  {
    forall id | id in t.rows ensures id in Payments(t) && Payments(t)[id].txHash == t.rows[id].txHash {
    }
  }

  /** A turn ends the pass: its query fails, or its hash is taken once the turns before it are done. */
  ghost predicate StopsAt(payments: map<Uuid, Payment>, list: seq<Payment>, expiry: Time, turns: Turns, k: nat)
    requires k < |list|
  {
    || FailsAt(expiry, list[k], turns(list[k].id))
    || Clashes(TurnedBy(payments, list, expiry, turns, k), expiry, list[k], turns(list[k].id))
  }

  /** The first turn, from `start` on, that ends the pass; the length of the list when none does. */
  ghost function Stop(payments: map<Uuid, Payment>, list: seq<Payment>, expiry: Time, turns: Turns, start: nat)
    : (k: nat)
    requires start <= |list|
    ensures start <= k <= |list|
    decreases |list| - start
  {
    if start == |list| || StopsAt(payments, list, expiry, turns, start) then start
    else Stop(payments, list, expiry, turns, start + 1)
  }

  /** It does end the pass, and no turn before it does. */
  lemma {:induction false} StopIsFirst(
    payments: map<Uuid, Payment>, list: seq<Payment>, expiry: Time, turns: Turns, start: nat, i: nat)
    requires start <= i < |list|
    ensures i < Stop(payments, list, expiry, turns, start) ==> !StopsAt(payments, list, expiry, turns, i)
    ensures i == Stop(payments, list, expiry, turns, start) ==> StopsAt(payments, list, expiry, turns, i)
    decreases |list| - start
  {
    if start < i {
      if !StopsAt(payments, list, expiry, turns, start) {
        StopIsFirst(payments, list, expiry, turns, start + 1, i);
      }
    }
  }

  /** What the first `k` turns make of what the actors share. */
  ghost predicate Progressed(a: Shared, b: Shared, expiry: Time, list: seq<Payment>, turns: Turns, k: nat)
    requires k <= |list|
  {
    && Payments(b.table) == TurnedBy(Payments(a.table), list, expiry, turns, k)
    && b.table.rows.Keys == a.table.rows.Keys
    && b.emissions == a.emissions + EventsOf(list, expiry, turns, k)
    && b.ledger == a.ledger
    && b.now <= if k == 0 then a.now else turns(list[k - 1].id).emittedAt
  }

  /** Where the worker and the table stand after the first `k` turns. */
  ghost predicate AfterTurns(w: World, s: State, s': State, actor: nat, list: seq<Payment>, turns: Turns, k: nat)
    requires k <= |list|
  {
    && Reaches(w, s, s')
    && PhaseOf(s', actor) == Reviewing(list[k..])
    && Progressed(s.shared, s'.shared, Expiry(w), list, turns, k)
  }

  /** What a pass needs of the world: a current list, and answers of the ledger as it stands. */
  ghost predicate PassGiven(w: World, sh: Shared, list: seq<Payment>, turns: Turns) {
    && AreCurrent(Payments(sh.table), list)
    && Undisturbed(w, sh, list, turns)
  }

  lemma StillAnswers(w: World, a: Shared, b: Shared, p: Payment, turn: Turn)
    requires Answers(w, a, p, turn) && b.ledger == a.ledger && b.now <= turn.now
    ensures Answers(w, b, p, turn)
  {
  }

  lemma NextTurnAnswers(w: World, s: State, s': State, actor: nat, list: seq<Payment>, turns: Turns, k: nat)
    requires k < |list| && Undisturbed(w, s.shared, list, turns) && AfterTurns(w, s, s', actor, list, turns, k)
    ensures PhaseOf(s', actor) == Reviewing([list[k]] + list[k + 1..])
    ensures Answers(w, s'.shared, list[k], turns(list[k].id))
  {
    assert list[k..] == [list[k]] + list[k + 1..];
    assert list[k] in list && Answers(w, s.shared, list[k], turns(list[k].id));
    if k > 0 {
      assert Follows(turns(list[k - 1].id), turns(list[k].id));
    }
    StillAnswers(w, s.shared, s'.shared, list[k], turns(list[k].id));
  }

  lemma StoredPayment(t: Table, id: Uuid)
    requires id in Payments(t)
    ensures id in t.rows && FromRow(t.rows[id]) == Payments(t)[id]
  {
  }

  /** The snapshot is still current when its turn comes. */
  lemma NextTurnIsCurrent(
    payments: map<Uuid, Payment>, t: Table, list: seq<Payment>, expiry: Time, turns: Turns, k: nat)
    requires k < |list| && AreCurrent(payments, list)
    requires Payments(t) == TurnedBy(payments, list, expiry, turns, k)
    ensures list[k].id in t.rows && FromRow(t.rows[list[k].id]) == list[k]
  {
    NotYetDone(payments, list, expiry, turns, k, k);
    StoredPayment(t, list[k].id);
  }

  /** What one turn makes of what the actors share. */
  ghost predicate Turned(b: Shared, c: Shared, expiry: Time, p: Payment, turn: Turn) {
    && Payments(c.table) == Payments(b.table)[p.id := Reconciled(expiry, p, turn)]
    && c.emissions == b.emissions + EventOf(expiry, p, turn)
    && c.ledger == b.ledger && c.now <= turn.emittedAt
  }

  lemma SameKeys(t: Table, t': Table, id: Uuid, p: Payment)
    requires id in t.rows && Payments(t') == Payments(t)[id := p]
    ensures t'.rows.Keys == t.rows.Keys
  {
    assert Payments(t').Keys == t'.rows.Keys && Payments(t).Keys == t.rows.Keys;
  }

  lemma NoProgressYet(sh: Shared, expiry: Time, list: seq<Payment>, turns: Turns)
    ensures Progressed(sh, sh, expiry, list, turns, 0)
  {
    assert sh.emissions + [] == sh.emissions;
  }

  lemma ProgressExtends(a: Shared, b: Shared, c: Shared, expiry: Time, list: seq<Payment>, turns: Turns, k: nat)
    requires k < |list| && Progressed(a, b, expiry, list, turns, k)
    requires list[k].id in b.table.rows && Turned(b, c, expiry, list[k], turns(list[k].id))
    ensures Progressed(a, c, expiry, list, turns, k + 1)
  {
    SameKeys(b.table, c.table, list[k].id, Reconciled(expiry, list[k], turns(list[k].id)));
    assert a.emissions + EventsOf(list, expiry, turns, k) + EventOf(expiry, list[k], turns(list[k].id))
        == a.emissions + EventsOf(list, expiry, turns, k + 1);
  }

  /** The pass is over, and its last step changed nothing. */
  ghost predicate EndsAt(w: World, s: State, s1: State, s': State, actor: nat) {
    && Reaches(w, s, s') && PhaseOf(s', actor) == Idle
    && Payments(s'.shared.table) == Payments(s1.shared.table)
    && s'.shared.emissions == s1.shared.emissions
  }

  lemma FailureChangesNothing(t: Table, emissions: seq<Emission>, expiry: Time, p: Payment, turn: Turn)
    requires p.id in t.rows && FromRow(t.rows[p.id]) == p && FailsAt(expiry, p, turn)
    ensures Payments(t)[p.id := Reconciled(expiry, p, turn)] == Payments(t)
    ensures emissions + EventOf(expiry, p, turn) == emissions
  {
    NoUpdateNoChange(t, emissions, expiry, p, turn);
  }

  /** A turn that fails ends the pass with nothing changed. */
  lemma FailureEndsThePass(w: World, s0: State, s: State, actor: nat, p: Payment, rest: seq<Payment>, turn: Turn)
    returns (s': State)
    requires Reaches(w, s0, s) && PhaseOf(s, actor) == Reviewing([p] + rest) && Answers(w, s.shared, p, turn)
    requires p.id in s.shared.table.rows && FromRow(s.shared.table.rows[p.id]) == p
    requires FailsAt(Expiry(w), p, turn)
    ensures EndsAt(w, s0, s, s', actor)
  {
    s' := TurnIsARun(w, s0, s, actor, p, rest, turn);
    FailureChangesNothing(s.shared.table, s.shared.emissions, Expiry(w), p, turn);
  }

  /** The update of a hash another row holds is refused. */
  lemma TakenHashIsRefused(t: Table, expiry: Time, p: Payment, turn: Turn, now: Time)
    requires p.id in t.rows && FromRow(t.rows[p.id]) == p && !HashFree(t, expiry, p, turn)
    ensures
      var decided := Decide(expiry, p, turn);
      decided.payment == p && UpdateStatus(t, p.id, decided.next, decided.hash, now) == (t, Err(Conflict))
  {
    DecisionsAreLegal(expiry, p, turn);
  }

  lemma RefusedUpdateEndsThePass(
    w: World, s0: State, s: State, actor: nat, p: Payment, rest: seq<Payment>, turn: Turn)
    returns (s': State)
    requires Reaches(w, s0, s) && PhaseOf(s, actor) == WithRest(Decide(Expiry(w), p, turn), rest)
    requires p.id in s.shared.table.rows && FromRow(s.shared.table.rows[p.id]) == p
    requires !HashFree(s.shared.table, Expiry(w), p, turn)
    ensures Reaches(w, s0, s') && PhaseOf(s', actor) == Idle && s'.shared == s.shared
  {
    TakenHashIsRefused(s.shared.table, Expiry(w), p, turn, s.shared.now);
    s' := Acts(w, s0, s, actor, Update(Replied));
  }

  /** A turn whose hash is taken ends the pass with nothing changed. */
  lemma ClashEndsThePass(w: World, s0: State, s: State, actor: nat, p: Payment, rest: seq<Payment>, turn: Turn)
    returns (s': State)
    requires Reaches(w, s0, s) && PhaseOf(s, actor) == Reviewing([p] + rest) && Answers(w, s.shared, p, turn)
    requires p.id in s.shared.table.rows && FromRow(s.shared.table.rows[p.id]) == p
    requires !HashFree(s.shared.table, Expiry(w), p, turn)
    ensures EndsAt(w, s0, s, s', actor)
  {
    s' := Decides(w, s0, s, actor, p, rest, turn);
    s' := Waits(w, s0, s', turn.updatedAt);
    s' := RefusedUpdateEndsThePass(w, s0, s', actor, p, rest, turn);
  }

  /** The machine can get through the first `k` turns. */
  ghost predicate CanTurn(w: World, s: State, actor: nat, list: seq<Payment>, turns: Turns, k: nat) {
    k <= |list| && exists s' :: AfterTurns(w, s, s', actor, list, turns, k)
  }

  /** What is to be shown of `k`: given the pass, the machine gets that far unless a turn ends it before. */
  ghost predicate GetsTo(w: World, s: State, actor: nat, list: seq<Payment>, turns: Turns, k: nat) {
    PassGiven(w, s.shared, list, turns) && k <= Stop(Payments(s.shared.table), list, Expiry(w), turns, 0)
    ==> CanTurn(w, s, actor, list, turns, k)
  }

  lemma NoTurnYet(w: World, s: State, actor: nat, list: seq<Payment>, turns: Turns)
    requires PhaseOf(s, actor) == Reviewing(list)
    ensures GetsTo(w, s, actor, list, turns, 0)
  {
    ReachesSelf(w, s);
    NoProgressYet(s.shared, Expiry(w), list, turns);
    assert list[0..] == list;
    assert AfterTurns(w, s, s, actor, list, turns, 0);
  }

  /** A turn before the one that ends the pass finds its hash free, and does not fail. */
  lemma TurnGoesThrough(
    payments: map<Uuid, Payment>, t: Table, list: seq<Payment>, expiry: Time, turns: Turns, k: nat)
    requires k < Stop(payments, list, expiry, turns, 0) && Payments(t) == TurnedBy(payments, list, expiry, turns, k)
    ensures HashFree(t, expiry, list[k], turns(list[k].id)) && !FailsAt(expiry, list[k], turns(list[k].id))
  {
    StopIsFirst(payments, list, expiry, turns, 0, k);
    ClashesIffTaken(t, expiry, list[k], turns(list[k].id));
  }

  /** Before the turn that ends the pass, every turn leads to the next. */
  lemma OneMoreRun(w: World, s: State, actor: nat, list: seq<Payment>, turns: Turns, k: nat, next: nat)
    requires next == k + 1
    ensures GetsTo(w, s, actor, list, turns, k) ==> GetsTo(w, s, actor, list, turns, next)
  {
    if && PassGiven(w, s.shared, list, turns) && CanTurn(w, s, actor, list, turns, k)
       && k < Stop(Payments(s.shared.table), list, Expiry(w), turns, 0)
    {
      var s1 :| AfterTurns(w, s, s1, actor, list, turns, k);
      TurnGoesThrough(Payments(s.shared.table), s1.shared.table, list, Expiry(w), turns, k);
      NextTurnAnswers(w, s, s1, actor, list, turns, k);
      NextTurnIsCurrent(Payments(s.shared.table), s1.shared.table, list, Expiry(w), turns, k);
      var s' := TurnIsARun(w, s, s1, actor, list[k], list[next..], turns(list[k].id));
      ProgressExtends(s.shared, s1.shared, s'.shared, Expiry(w), list, turns, k);
      assert AfterTurns(w, s, s', actor, list, turns, next);
    }
  }

  /** The machine can get as far as the first turn that ends the pass. */
  lemma {:induction false} TurnsAreARun(w: World, s: State, actor: nat, list: seq<Payment>, turns: Turns, k: nat)
    requires PhaseOf(s, actor) == Reviewing(list)
    ensures GetsTo(w, s, actor, list, turns, k)
  {
    NoTurnYet(w, s, actor, list, turns);
    var n := 0;
    while n < k
      invariant n <= k && GetsTo(w, s, actor, list, turns, n)
    {
      OneMoreRun(w, s, actor, list, turns, n, n + 1);
      n := n + 1;
    }
  }

  /** The pass is over and has made of payments and emissions what its first `k` turns do. */
  ghost predicate PassDone(w: World, s: State, s': State, actor: nat, list: seq<Payment>, turns: Turns, k: nat)
    requires k <= |list|
  {
    && Reaches(w, s, s') && PhaseOf(s', actor) == Idle
    && Payments(s'.shared.table) == TurnedBy(Payments(s.shared.table), list, Expiry(w), turns, k)
    && s'.shared.emissions == s.shared.emissions + EventsOf(list, Expiry(w), turns, k)
  }

  lemma EndOfList(w: World, s: State, s1: State, actor: nat, list: seq<Payment>, turns: Turns) returns (s': State)
    requires AfterTurns(w, s, s1, actor, list, turns, |list|)
    ensures PassDone(w, s, s', actor, list, turns, |list|)
  {
    s' := Acts(w, s, s1, actor, Finish);
  }

  lemma EndByStop(w: World, s: State, s1: State, actor: nat, list: seq<Payment>, turns: Turns, k: nat)
    returns (s': State)
    requires k < |list| && PassGiven(w, s.shared, list, turns) && AfterTurns(w, s, s1, actor, list, turns, k)
    requires StopsAt(Payments(s.shared.table), list, Expiry(w), turns, k)
    ensures PassDone(w, s, s', actor, list, turns, k)
  {
    var p, turn := list[k], turns(list[k].id);
    NextTurnAnswers(w, s, s1, actor, list, turns, k);
    NextTurnIsCurrent(Payments(s.shared.table), s1.shared.table, list, Expiry(w), turns, k);
    if FailsAt(Expiry(w), p, turn) {
      s' := FailureEndsThePass(w, s, s1, actor, p, list[k + 1..], turn);
    } else {
      ClashesIffTaken(s1.shared.table, Expiry(w), p, turn);
      s' := ClashEndsThePass(w, s, s1, actor, p, list[k + 1..], turn);
    }
  }

  /** From a list in hand to the end of the pass; the turn that ends it changes nothing. */
  lemma ListIsWorkedOff(w: World, s: State, actor: nat, list: seq<Payment>, turns: Turns) returns (s': State)
    requires PhaseOf(s, actor) == Reviewing(list) && PassGiven(w, s.shared, list, turns)
    ensures PassDone(w, s, s', actor, list, turns, Stop(Payments(s.shared.table), list, Expiry(w), turns, 0))
  {
    var k := Stop(Payments(s.shared.table), list, Expiry(w), turns, 0);
    TurnsAreARun(w, s, actor, list, turns, k);
    var s1 :| AfterTurns(w, s, s1, actor, list, turns, k);
    if k == |list| {
      s' := EndOfList(w, s, s1, actor, list, turns);
    } else {
      StopIsFirst(Payments(s.shared.table), list, Expiry(w), turns, 0, k);
      s' := EndByStop(w, s, s1, actor, list, turns, k);
    }
  }

  lemma {:induction false} RunsCompose(w: World, s: State, first: seq<Move>, second: seq<Move>)
    requires IsRun(w, s, first) && IsRun(w, After(w, s, first), second)
    ensures IsRun(w, s, first + second) && After(w, s, first + second) == After(w, After(w, s, first), second)
    decreases |first|
  {
    if first == [] {
      assert first + second == second;
    } else {
      assert (first + second)[1..] == first[1..] + second;
      RunsCompose(w, Step(w, s, first[0]), first[1..], second);
    }
  }

  lemma ReachesThrough(w: World, a: State, b: State, c: State)
    requires Reaches(w, a, b) && Reaches(w, b, c)
    ensures Reaches(w, a, c)
  {
    var first :| IsRun(w, a, first) && After(w, a, first) == b;
    var second :| IsRun(w, b, second) && After(w, b, second) == c;
    RunsCompose(w, a, first, second);
  }

  /**
   * A pass over the constrained table, without interference, is a run of the
   * machine from idle to idle. The payments listed before the first turn whose
   * ledger query fails, or whose hash another payment has by then, have had
   * the pure step; the others are as they were; and the events are enqueued in
   * that order.
   */
  lemma PassIsARun(w: World, s: State, actor: nat, list: seq<Payment>, turns: Turns) returns (s': State)
    requires PhaseOf(s, actor) == Idle && IsPendingList(s.shared.table, list)
    requires PassGiven(w, s.shared, list, turns)
    ensures Reaches(w, s, s') && PhaseOf(s', actor) == Idle
    ensures
      var k := Stop(Payments(s.shared.table), list, Expiry(w), turns, 0);
      && Payments(s'.shared.table) == Pointwise(Payments(s.shared.table), Expiry(w), turns, Ids(list[..k]))
      && s'.shared.emissions == s.shared.emissions + EventsOf(list, Expiry(w), turns, k)
  {
    ReachesSelf(w, s);
    InPlaceIsPointwise(Payments(s.shared.table), list, Expiry(w), turns,
                       Stop(Payments(s.shared.table), list, Expiry(w), turns, 0));
    var listed := Acts(w, s, s, actor, List(list));
    s' := ListIsWorkedOff(w, listed, actor, list, turns);
    ReachesThrough(w, s, listed, s');
  }

  // === A shared hash

  lemma SettledHashStaysInTurn(expiry: Time, p: Payment, turn: Turn)
    requires !p.status.Pending?
    ensures Reconciled(expiry, p, turn).txHash == p.txHash
  {
  }

  /** The hash of a payment that is past detection does not change during a pass. */
  lemma {:induction false} SettledHashStays(
    payments: map<Uuid, Payment>, list: seq<Payment>, expiry: Time, turns: Turns, k: nat, id: Uuid)
    requires k <= |list| && AreCurrent(payments, list) && id in payments && !payments[id].status.Pending?
    ensures id in TurnedBy(payments, list, expiry, turns, k)
    ensures TurnedBy(payments, list, expiry, turns, k)[id].txHash == payments[id].txHash
  {
    if k > 0 {
      assert list[k - 1] in list;
      SettledHashStays(payments, list, expiry, turns, k - 1, id);
      if list[k - 1].id == id {
        SettledHashStaysInTurn(expiry, list[k - 1], turns(id));
      }
    }
  }

  /**
   * A payment that is offered another's hash ends the pass at its own turn at
   * the latest. Hashes are final, so it does so on every later pass that
   * offers it: whatever is listed after it goes without a turn.
   */
  lemma SharedHashEndsThePass(
    payments: map<Uuid, Payment>, list: seq<Payment>, expiry: Time, turns: Turns, i: nat, other: Uuid)
    requires i < |list| && AreCurrent(payments, list) && Offered(expiry, list[i], turns(list[i].id)).Some?
    requires other in payments && other != list[i].id && !payments[other].status.Pending?
    requires payments[other].txHash == Offered(expiry, list[i], turns(list[i].id))
    ensures Stop(payments, list, expiry, turns, 0) <= i
  {
    SettledHashStays(payments, list, expiry, turns, i, other);
    assert StopsAt(payments, list, expiry, turns, i);
    if i < Stop(payments, list, expiry, turns, 0) {
      StopIsFirst(payments, list, expiry, turns, 0, i);
    }
  }

  // === Without shared hashes

  /** The other payment has the hash `p` is offered, or is offered it too. */
  predicate MayClash(payments: map<Uuid, Payment>, list: seq<Payment>, expiry: Time, turns: Turns, p: Payment, id: Uuid)
    requires id in payments
  {
    var offered := Offered(expiry, p, turns(p.id));
    && offered.Some?
    && (|| payments[id].txHash == offered
        || (payments[id] in list && Offered(expiry, payments[id], turns(id)) == offered))
  }

  /** No hash is offered to two payments, or to one while another has it already. */
  ghost predicate NoSharedHashes(payments: map<Uuid, Payment>, list: seq<Payment>, expiry: Time, turns: Turns) {
    forall p: Payment, id: Uuid {:trigger MayClash(payments, list, expiry, turns, p, id)} ::
      p in list && id in payments && id != p.id ==> !MayClash(payments, list, expiry, turns, p, id)
  }

  lemma HashAfterTurn(expiry: Time, p: Payment, turn: Turn)
    ensures Reconciled(expiry, p, turn).txHash == p.txHash
         || Reconciled(expiry, p, turn).txHash == Offered(expiry, p, turn)
  {
  }

  /** A hash stored after some turns was there before, or was offered by its payment's turn. */
  lemma {:induction false} WhereHashesComeFrom(
    payments: map<Uuid, Payment>, list: seq<Payment>, expiry: Time, turns: Turns, k: nat, id: Uuid)
    requires k <= |list| && AreCurrent(payments, list) && id in payments
    ensures id in TurnedBy(payments, list, expiry, turns, k)
    ensures
      var hash := TurnedBy(payments, list, expiry, turns, k)[id].txHash;
      || hash == payments[id].txHash
      || (payments[id] in list && hash == Offered(expiry, payments[id], turns(id)))
  {
    if k > 0 {
      assert list[k - 1] in list;
      WhereHashesComeFrom(payments, list, expiry, turns, k - 1, id);
      HashAfterTurn(expiry, list[k - 1], turns(list[k - 1].id));
    }
  }

  lemma {:induction false} TurnsKeepKeys(
    payments: map<Uuid, Payment>, list: seq<Payment>, expiry: Time, turns: Turns, k: nat)
    requires k <= |list| && AreCurrent(payments, list)
    ensures TurnedBy(payments, list, expiry, turns, k).Keys == payments.Keys
  {
    if k > 0 {
      assert list[k - 1] in list;
      TurnsKeepKeys(payments, list, expiry, turns, k - 1);
    }
  }

  lemma NothingClashes(payments: map<Uuid, Payment>, list: seq<Payment>, expiry: Time, turns: Turns, k: nat)
    requires k < |list| && AreCurrent(payments, list) && NoSharedHashes(payments, list, expiry, turns)
    ensures !Clashes(TurnedBy(payments, list, expiry, turns, k), expiry, list[k], turns(list[k].id))
  {
    var p, turned := list[k], TurnedBy(payments, list, expiry, turns, k);
    assert p in list;
    forall id | id in turned && id != p.id && Offered(expiry, p, turns(p.id)).Some?
      ensures turned[id].txHash != Offered(expiry, p, turns(p.id))
    {
      TurnsKeepKeys(payments, list, expiry, turns, k);
      WhereHashesComeFrom(payments, list, expiry, turns, k, id);
      assert !MayClash(payments, list, expiry, turns, p, id);
    }
  }

  /** The pass then ends where the in-place loop does. */
  lemma {:induction false} StopIsFirstFailure(
    payments: map<Uuid, Payment>, list: seq<Payment>, expiry: Time, turns: Turns)
    requires AreCurrent(payments, list) && NoSharedHashes(payments, list, expiry, turns)
    ensures Stop(payments, list, expiry, turns, 0) == Processed(list, expiry, turns)
  {
    var stop, processed := Stop(payments, list, expiry, turns, 0), Processed(list, expiry, turns);
    if stop < processed {
      StopIsFirst(payments, list, expiry, turns, 0, stop);
      NothingClashes(payments, list, expiry, turns, stop);
    } else if processed < stop {
      StopIsFirst(payments, list, expiry, turns, 0, processed);
    }
  }

  /** A pass without shared hashes leaves the table as the in-place loop leaves the in-memory repository. */
  lemma UnsharedPassIsARun(w: World, s: State, actor: nat, list: seq<Payment>, turns: Turns) returns (s': State)
    requires PhaseOf(s, actor) == Idle && IsPendingList(s.shared.table, list)
    requires PassGiven(w, s.shared, list, turns)
    requires NoSharedHashes(Payments(s.shared.table), list, Expiry(w), turns)
    ensures Reaches(w, s, s') && PhaseOf(s', actor) == Idle
    ensures
      var k := Processed(list, Expiry(w), turns);
      && Payments(s'.shared.table) == Pointwise(Payments(s.shared.table), Expiry(w), turns, Ids(list[..k]))
      && s'.shared.emissions == s.shared.emissions + EventsOf(list, Expiry(w), turns, k)
  {
    StopIsFirstFailure(Payments(s.shared.table), list, Expiry(w), turns);
    s' := PassIsARun(w, s, actor, list, turns);
  }
}
