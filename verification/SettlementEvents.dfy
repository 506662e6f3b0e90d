/** Events: how the outbox accounts for the transitions workers take. */
module SettlementEvents {
  import opened Wrappers
  import opened Collections
  import opened PaymentCore
  import opened PaymentTable
  import opened Settlement
  import opened SettlementSafety
  import opened SettlementLifecycle

  // === What is counted

  /** Which transitions or events are meant: by payment and status. */
  type Selection = (Uuid, PaymentStatus) -> bool

  function Exactly(id: Uuid, to: PaymentStatus): Selection {
    (i: Uuid, status: PaymentStatus) => i == id && status == to
  }

  function AnyOf(id: Uuid): Selection {
    (i: Uuid, status: PaymentStatus) => i == id
  }

  /** Transitions a worker took and learned of. */
  function Taken(sel: Selection): Entry -> bool {
    (e: Entry) => e.byWorker && e.reported && sel(e.id, e.to)
  }

  /** Transitions a worker took whose reply was lost. */
  function Unreported(sel: Selection): Entry -> bool {
    (e: Entry) => e.byWorker && !e.reported && sel(e.id, e.to)
  }

  function TakenAtAll(sel: Selection): Entry -> bool {
    (e: Entry) => e.byWorker && sel(e.id, e.to)
  }

  function Tried(sel: Selection): Emission -> bool {
    (m: Emission) => sel(m.event.payment.id, NamedStatus(m.event))
  }

  function Enqueued(sel: Selection): Emission -> bool {
    (m: Emission) => m.enqueued && sel(m.event.payment.id, NamedStatus(m.event))
  }

  function Dropped(sel: Selection): Emission -> bool {
    (m: Emission) => !m.enqueued && sel(m.event.payment.id, NamedStatus(m.event))
  }

  predicate Carries(phase: Phase, sel: Selection) {
    phase.Emitting? && sel(phase.event.payment.id, NamedStatus(phase.event))
  }

  /** Workers between their update and their enqueue. */
  ghost function InFlight(s: State, sel: Selection): set<nat> {
    set a | a in s.actors && Carries(s.actors[a], sel)
  }

  // === The balance

  ghost predicate Balanced(s: State, sel: Selection) {
    Count(s.shared.log, Taken(sel)) == Count(s.shared.emissions, Tried(sel)) + |InFlight(s, sel)|
  }

  function AsNumber(b: bool): int {
    if b then 1 else 0
  }

  /** How far one step moved the log ahead of the emissions. */
  function Gain(a: Shared, b: Shared, sel: Selection): int {
    (Count(b.log, Taken(sel)) - Count(a.log, Taken(sel)))
    - (Count(b.emissions, Tried(sel)) - Count(a.emissions, Tried(sel)))
  }

  lemma CountOneMore<T(!new)>(s: seq<T>, x: T, p: T -> bool)
    ensures Count(s + [x], p) == Count(s, p) + AsNumber(p(x))
  {
    CountConcat(s, [x], p);
    FilterOne(x, p);
  }

  lemma PerformGains(sh: Shared, id: Uuid, next: PaymentStatus, hash: Option<string>, byWorker: bool, reported: bool,
                     sel: Selection)
    ensures
      var (sh', r) := Perform(sh, id, next, hash, byWorker, reported);
      Gain(sh, sh', sel) == AsNumber(r.Ok? && byWorker && reported && sel(id, next))
  {
    var (sh', r) := Perform(sh, id, next, hash, byWorker, reported);
    if r.Ok? {
      CountOneMore(sh.log, Entry(id, next, byWorker, reported, sh.now), Taken(sel));
    }
  }

  lemma UpdateGains(sh: Shared, p: Payment, next: PaymentStatus, hash: Option<string>, todo: seq<Payment>, reply: Reply,
                    sel: Selection)
    requires RowsKeyed(sh.table)
    ensures
      var (sh', phase') := Updated(sh, p, next, hash, todo, reply);
      Gain(sh, sh', sel) == AsNumber(Carries(phase', sel))
  {
    PerformGains(sh, p.id, next, hash, true, reply.Replied?, sel);
    var r := UpdateStatus(sh.table, p.id, next, hash, sh.now).1;
    if r.Ok? {
      assert r.value.id == p.id;
      assert NamedStatus(EventFor(next, r.value)) == next && EventFor(next, r.value).payment == r.value;
    }
  }

  lemma EmitGains(sh: Shared, event: PaymentEvent, todo: seq<Payment>, succeeds: bool, sel: Selection)
    ensures Gain(sh, Emitted(sh, event, succeeds), sel) == -AsNumber(Carries(Emitting(event, todo), sel))
  {
    CountOneMore(sh.emissions, Emission(event, succeeds, sh.now), Tried(sel));
  }

  lemma CommitGains(sh: Shared, id: Uuid, target: PaymentStatus, hash: Option<string>, reply: Reply, sel: Selection)
    ensures Gain(sh, Committed(sh, id, target, hash, reply), sel) == 0
  {
    PerformGains(sh, id, target, hash, false, reply.Replied?, sel);
  }

  /** Looking and answering touch neither the log nor the emissions. */
  lemma OtherwiseNothingGained(w: World, sh: Shared, phase: Phase, action: Action)
    requires Can(w, sh, phase, action) && !action.Update? && !action.Emit? && !action.Commit?
    ensures
      var (sh', phase') := Act(w, sh, phase, action);
      sh'.log == sh.log && sh'.emissions == sh.emissions && !phase.Emitting? && !phase'.Emitting?
  {
  }

  lemma ActGains(w: World, sh: Shared, phase: Phase, action: Action, sel: Selection)
    requires RowsKeyed(sh.table) && Can(w, sh, phase, action)
    ensures
      var (sh', phase') := Act(w, sh, phase, action);
      Gain(sh, sh', sel) == AsNumber(Carries(phase', sel)) - AsNumber(Carries(phase, sel))
  {
    match action
    case Update(reply) => UpdateGains(sh, phase.payment, phase.next, phase.hash, phase.todo, reply, sel);
    case Emit(succeeds) => EmitGains(sh, phase.event, phase.todo, succeeds, sel);
    case Commit(reply) => CommitGains(sh, phase.id, phase.target, phase.hash, reply, sel);
    case _ => OtherwiseNothingGained(w, sh, phase, action);
  }

  lemma OneActorMoves(s: State, actor: nat, phase: Phase, shared: Shared, sel: Selection)
    ensures |InFlight(State(shared, s.actors[actor := phase]), sel)| - |InFlight(s, sel)|
         == AsNumber(Carries(phase, sel)) - AsNumber(Carries(PhaseOf(s, actor), sel))
  {
    var s' := State(shared, s.actors[actor := phase]);
    var others := InFlight(s, sel) - {actor};
    assert InFlight(s, sel) == if Carries(PhaseOf(s, actor), sel) then others + {actor} else others;
    assert InFlight(s', sel) == if Carries(phase, sel) then others + {actor} else others;
  }

  lemma StepBalances(w: World, s: State, move: Move, sel: Selection)
    requires RowsKeyed(s.shared.table) && Balanced(s, sel) && Enabled(w, s, move)
    ensures Balanced(Step(w, s, move), sel)
  {
    var s' := Step(w, s, move);
    match move
    case Tick(_) => assert InFlight(s', sel) == InFlight(s, sel);
    case Append(_) => assert InFlight(s', sel) == InFlight(s, sel);
    case By(actor, action) =>
      ActGains(w, s.shared, PhaseOf(s, actor), action, sel);
      OneActorMoves(s, actor, Act(w, s.shared, PhaseOf(s, actor), action).1, s'.shared, sel);
  }

  lemma {:induction false} RunBalances(w: World, s: State, moves: seq<Move>, sel: Selection)
    requires Inv(w, s) && Balanced(s, sel) && IsRun(w, s, moves)
    ensures Balanced(After(w, s, moves), sel)
    decreases |moves|
  {
    if moves != [] {
      StepOk(w, s, moves[0]);
      StepBalances(w, s, moves[0], sel);
      RunBalances(w, Step(w, s, moves[0]), moves[1..], sel);
    }
  }

  lemma ReachableBalanced(w: World, s: State, sel: Selection)
    requires Reachable(w, s)
    ensures Balanced(s, sel)
  {
    var now, moves :| IsRun(w, Initial(now), moves) && After(w, Initial(now), moves) == s;
    assert InFlight(Initial(now), sel) == {};
    RunBalances(w, Initial(now), moves, sel);
  }

  // === The accounting theorem

  lemma {:induction false} TakenSplits(log: seq<Entry>, sel: Selection)
    ensures Count(log, TakenAtAll(sel)) == Count(log, Taken(sel)) + Count(log, Unreported(sel))
  {
    if log != [] {
      TakenSplits(log[1..], sel);
    }
  }

  lemma {:induction false} TriedSplits(emissions: seq<Emission>, sel: Selection)
    ensures Count(emissions, Tried(sel)) == Count(emissions, Enqueued(sel)) + Count(emissions, Dropped(sel))
  {
    if emissions != [] {
      TriedSplits(emissions[1..], sel);
    }
  }

  /**
   * Per payment and target status, in every reachable state: the transitions
   * workers took are the events enqueued, the enqueues that failed, the
   * workers still about to enqueue, and the updates whose reply was lost.
   */
  lemma EventsAccountForTransitions(w: World, s: State, id: Uuid, to: PaymentStatus)
    requires Reachable(w, s)
    ensures
      var sel := Exactly(id, to);
      Count(s.shared.log, TakenAtAll(sel))
        == Count(s.shared.emissions, Enqueued(sel)) + Count(s.shared.emissions, Dropped(sel))
         + |InFlight(s, sel)| + Count(s.shared.log, Unreported(sel))
  {
    ReachableBalanced(w, s, Exactly(id, to));
    TakenSplits(s.shared.log, Exactly(id, to));
    TriedSplits(s.shared.emissions, Exactly(id, to));
  }

  lemma {:induction false} CountMonotone<T(!new)>(s: seq<T>, p: T -> bool, q: T -> bool)
    requires forall x :: p(x) ==> q(x)
    ensures Count(s, p) <= Count(s, q)
  {
    if s != [] {
      CountMonotone(s[1..], p, q);
    }
  }

  /** No lifecycle event is enqueued twice, and no payment gets more than two. */
  lemma EventsEnqueuedAtMostOnce(w: World, s: State, id: Uuid, to: PaymentStatus)
    requires Reachable(w, s)
    ensures Count(s.shared.emissions, Enqueued(Exactly(id, to))) <= 1
    ensures Count(s.shared.emissions, Enqueued(AnyOf(id))) <= 2
  {
    ReachableOk(w, s);
    ReachableBalanced(w, s, Exactly(id, to));
    ReachableBalanced(w, s, AnyOf(id));
    TriedSplits(s.shared.emissions, Exactly(id, to));
    TriedSplits(s.shared.emissions, AnyOf(id));
    CountMonotone(s.shared.log, Taken(Exactly(id, to)), ReachedBy(id, to));
    CountMonotone(s.shared.log, Taken(AnyOf(id)), EntriesOf(id));
    if id in s.shared.table.rows {
      HistoriesArePaths(w, s, id, to);
    } else {
      NoTrail(s.shared.log, id);
      TrailCounts(s.shared.log, id, to);
    }
  }

  // === A lost reply

  lemma ActGrowsLog(w: World, sh: Shared, phase: Phase, action: Action)
    requires Can(w, sh, phase, action)
    ensures sh.log <= Act(w, sh, phase, action).0.log
  {
  }

  lemma {:induction false} RunGrowsLog(w: World, s: State, moves: seq<Move>)
    requires IsRun(w, s, moves)
    ensures s.shared.log <= After(w, s, moves).shared.log
    decreases |moves|
  {
    if moves != [] {
      if moves[0].By? {
        ActGrowsLog(w, s.shared, PhaseOf(s, moves[0].actor), moves[0].action);
      }
      RunGrowsLog(w, Step(w, s, moves[0]), moves[1..]);
    }
  }

  lemma {:induction false} CountOfMember<T(!new)>(s: seq<T>, p: T -> bool, x: T)
    requires x in s && p(x)
    ensures Count(s, p) >= 1
  {
    if x != s[0] {
      CountOfMember(s[1..], p, x);
    }
  }

  /** What the worker took without learning of it, it never tells. */
  lemma UnreportedIsUntold(w: World, s: State, e: Entry)
    requires Reachable(w, s) && e in s.shared.log && e.byWorker && !e.reported && e.id in s.shared.table.rows
    ensures Count(s.shared.emissions, Tried(Exactly(e.id, e.to))) == 0
  {
    var sel := Exactly(e.id, e.to);
    ReachableBalanced(w, s, sel);
    HistoriesArePaths(w, s, e.id, e.to);
    TakenSplits(s.shared.log, sel);
    CountMonotone(s.shared.log, TakenAtAll(sel), ReachedBy(e.id, e.to));
    CountOfMember(s.shared.log, Unreported(sel), e);
  }

  lemma LostUpdateTakesEffect(w: World, s: State, actor: nat)
    requires PhaseOf(s, actor).Updating?
    requires
      var phase := PhaseOf(s, actor);
      UpdateStatus(s.shared.table, phase.payment.id, phase.next, phase.hash, s.shared.now).1.Ok?
    ensures
      var phase, s' := PhaseOf(s, actor), Step(w, s, By(actor, Update(ReplyLost)));
      && s'.shared.table == UpdateStatus(s.shared.table, phase.payment.id, phase.next, phase.hash, s.shared.now).0
      && s'.shared.log == s.shared.log + [Entry(phase.payment.id, phase.next, true, false, s.shared.now)]
      && phase.payment.id in s'.shared.table.rows
      && PhaseOf(s', actor) == Idle
  {
  }

  lemma {:induction false} RunsReachOn(w: World, s: State, moves: seq<Move>)
    requires Reachable(w, s) && IsRun(w, s, moves)
    ensures Reachable(w, After(w, s, moves))
    decreases |moves|
  {
    if moves != [] {
      RunsReach(w, s, moves[0]);
      RunsReachOn(w, Step(w, s, moves[0]), moves[1..]);
    }
  }

  /**
   * An update whose reply is lost takes effect, and nobody is ever told:
   * whatever runs from then on, no worker tries to enqueue its event.
   */
  lemma LostTransitionIsNeverAnnounced(w: World, s: State, lost: State, later: State, actor: nat, moves: seq<Move>)
    requires Reachable(w, s) && PhaseOf(s, actor).Updating?
    requires
      var phase := PhaseOf(s, actor);
      UpdateStatus(s.shared.table, phase.payment.id, phase.next, phase.hash, s.shared.now).1.Ok?
    requires lost == Step(w, s, By(actor, Update(ReplyLost)))
    requires IsRun(w, lost, moves) && later == After(w, lost, moves)
    ensures
      var phase := PhaseOf(s, actor);
      && lost.shared.table == UpdateStatus(s.shared.table, phase.payment.id, phase.next, phase.hash, s.shared.now).0
      && Count(later.shared.emissions, Tried(Exactly(phase.payment.id, phase.next))) == 0
  {
    var phase := PhaseOf(s, actor);
    LostUpdateTakesEffect(w, s, actor);
    var e := Entry(phase.payment.id, phase.next, true, false, s.shared.now);
    RunsReach(w, s, By(actor, Update(ReplyLost)));
    ReachableOk(w, lost);
    RunOk(w, lost, moves);
    RunGrowsLog(w, lost, moves);
    RunsReachOn(w, lost, moves);
    assert e in lost.shared.log;
    UnreportedIsUntold(w, later, e);
  }

  /** Every event carries the status its type spells out, of a payment that is stored. */
  lemma PayloadsNameTheirStatus(w: World, s: State, m: Emission)
    requires Reachable(w, s) && m in s.shared.emissions
    ensures m.event.payment.status == NamedStatus(m.event)
    ensures EventType(m.event) == "payment." + StatusText(m.event.payment.status)
    ensures m.event.payment.id in s.shared.table.rows
    ensures PaymentLater(m.event.payment, FromRow(s.shared.table.rows[m.event.payment.id]))
  {
    ReachableOk(w, s);
    assert EventOk(s.shared.table, m.event);
    TypeIsStatusText(m.event);
  }
}
