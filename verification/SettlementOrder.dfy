/** The order of events with one worker: enqueues follow transitions. */
module SettlementOrder {
  import opened Wrappers
  import opened Collections
  import opened PaymentCore
  import opened PaymentTable
  import opened Settlement
  import opened SettlementSafety

  // === One worker

  ghost predicate OneWorker(s: State) {
    forall a, b :: a in s.actors && b in s.actors && IsWorker(s.actors[a]) && IsWorker(s.actors[b]) ==> a == b
  }

  /** A transition or an event: of which payment, to which status. */
  datatype Change = Change(id: Uuid, to: PaymentStatus)

  /** The transitions workers took and learned of, in order. */
  function ReportedChanges(log: seq<Entry>): seq<Change> {
    if log == [] then []
    else
      var last := log[|log| - 1];
      ReportedChanges(log[..|log| - 1]) + if last.byWorker && last.reported then [Change(last.id, last.to)] else []
  }

  function ChangeOf(event: PaymentEvent): Change {
    Change(event.payment.id, NamedStatus(event))
  }

  /** The enqueues workers tried, in order. */
  function TriedChanges(emissions: seq<Emission>): seq<Change> {
    if emissions == [] then []
    else TriedChanges(emissions[..|emissions| - 1]) + [ChangeOf(emissions[|emissions| - 1].event)]
  }

  /** What one phase is about to enqueue. */
  function Pending(phase: Phase): seq<Change> {
    if phase.Emitting? then [ChangeOf(phase.event)] else []
  }

  /** The enqueues follow the transitions one for one, with at most the last one outstanding. */
  ghost predicate InStep(sh: Shared, phase: Phase) {
    ReportedChanges(sh.log) == TriedChanges(sh.emissions) + Pending(phase)
  }

  ghost predicate Lockstep(s: State) {
    && (forall a :: a in s.actors && IsWorker(s.actors[a]) ==> InStep(s.shared, s.actors[a]))
    && ((forall a :: a in s.actors ==> !IsWorker(s.actors[a])) ==> InStep(s.shared, Idle))
  }

  lemma ReportedGrow(log: seq<Entry>, e: Entry)
    ensures ReportedChanges(log + [e])
         == ReportedChanges(log) + if e.byWorker && e.reported then [Change(e.id, e.to)] else []
  {
    assert (log + [e])[..|log|] == log;
  }

  lemma TriedGrow(emissions: seq<Emission>, m: Emission)
    ensures TriedChanges(emissions + [m]) == TriedChanges(emissions) + [ChangeOf(m.event)]
  {
    assert (emissions + [m])[..|emissions|] == emissions;
  }

  lemma PerformReports(sh: Shared, id: Uuid, next: PaymentStatus, hash: Option<string>, byWorker: bool, reported: bool)
    ensures
      var (sh', r) := Perform(sh, id, next, hash, byWorker, reported);
      && sh'.emissions == sh.emissions
      && ReportedChanges(sh'.log)
         == ReportedChanges(sh.log) + if r.Ok? && byWorker && reported then [Change(id, next)] else []
  {
    var (sh', r) := Perform(sh, id, next, hash, byWorker, reported);
    if r.Ok? {
      ReportedGrow(sh.log, Entry(id, next, byWorker, reported, sh.now));
    } else {
      assert ReportedChanges(sh.log) + [] == ReportedChanges(sh.log);
    }
  }

  /** The event of an update names the change the update made. */
  lemma UpdateIsAnnounced(t: Table, id: Uuid, next: PaymentStatus, hash: Option<string>, now: Time)
    requires RowsKeyed(t)
    ensures
      var r := UpdateStatus(t, id, next, hash, now).1;
      r.Ok? ==> ChangeOf(EventFor(next, r.value)) == Change(id, next)
  {
    var r := UpdateStatus(t, id, next, hash, now).1;
    if r.Ok? {
      assert r.value.id == id;
    }
  }

  lemma UpdateInStep(
    sh: Shared, p: Payment, next: PaymentStatus, hash: Option<string>, todo: seq<Payment>, reply: Reply)
    requires RowsKeyed(sh.table) && InStep(sh, Idle)
    ensures
      var (sh', phase') := Updated(sh, p, next, hash, todo, reply);
      InStep(sh', phase')
  {
    if !reply.Refused? {
      PerformReports(sh, p.id, next, hash, true, reply.Replied?);
      UpdateIsAnnounced(sh.table, p.id, next, hash, sh.now);
      assert TriedChanges(sh.emissions) + [] == TriedChanges(sh.emissions);
    }
  }

  lemma EmitInStep(sh: Shared, event: PaymentEvent, todo: seq<Payment>, succeeds: bool)
    requires InStep(sh, Emitting(event, todo))
    ensures InStep(Emitted(sh, event, succeeds), Reviewing(todo))
  {
    TriedGrow(sh.emissions, Emission(event, succeeds, sh.now));
    assert TriedChanges(sh.emissions) + [ChangeOf(event)] + [] == TriedChanges(sh.emissions) + [ChangeOf(event)];
  }

  /** Neither an update nor an enqueue. */
  lemma LookingStaysInStep(w: World, sh: Shared, phase: Phase, action: Action)
    requires Can(w, sh, phase, action) && !action.Update? && !action.Emit?
    requires InStep(sh, phase) && (IsWorker(phase) || action.StartWorker?)
    ensures Act(w, sh, phase, action).0 == sh
    ensures IsWorker(Act(w, sh, phase, action).1) && InStep(sh, Act(w, sh, phase, action).1)
  {
  }

  /** A worker's own step keeps it in step. */
  lemma WorkerStaysInStep(w: World, sh: Shared, phase: Phase, action: Action)
    requires RowsKeyed(sh.table) && Can(w, sh, phase, action)
    requires InStep(sh, phase) && (IsWorker(phase) || action.StartWorker?)
    ensures
      var (sh', phase') := Act(w, sh, phase, action);
      IsWorker(phase') && InStep(sh', phase')
  {
    match action
    case Update(reply) => UpdateInStep(sh, phase.payment, phase.next, phase.hash, phase.todo, reply);
    case Emit(succeeds) => EmitInStep(sh, phase.event, phase.todo, succeeds);
    case _ => LookingStaysInStep(w, sh, phase, action);
  }

  lemma RequestsReportNothing(sh: Shared, p: Payment, key: Option<string>, fails: bool, reply: Reply)
    ensures Looked(sh, p, key, fails).0.log == sh.log && Looked(sh, p, key, fails).0.emissions == sh.emissions
    ensures !IsWorker(Looked(sh, p, key, fails).1)
    ensures Inserted(sh, p, key, reply).log == sh.log && Inserted(sh, p, key, reply).emissions == sh.emissions
  {
  }

  lemma CommitReportsNothing(sh: Shared, id: Uuid, target: PaymentStatus, hash: Option<string>, reply: Reply)
    ensures
      var sh' := Committed(sh, id, target, hash, reply);
      ReportedChanges(sh'.log) == ReportedChanges(sh.log) && sh'.emissions == sh.emissions
  {
    PerformReports(sh, id, target, hash, false, reply.Replied?);
    assert ReportedChanges(sh.log) + [] == ReportedChanges(sh.log);
  }

  /** Everyone else's step reports nothing and enqueues nothing. */
  lemma OthersReportNothing(w: World, sh: Shared, phase: Phase, action: Action)
    requires Can(w, sh, phase, action) && !IsWorker(phase) && !action.StartWorker?
    ensures
      var (sh', phase') := Act(w, sh, phase, action);
      && !IsWorker(phase')
      && ReportedChanges(sh'.log) == ReportedChanges(sh.log) && sh'.emissions == sh.emissions
  {
    match action
    case Commit(reply) => CommitReportsNothing(sh, phase.id, phase.target, phase.hash, reply);
    case FindKey(fails) => RequestsReportNothing(sh, phase.payment, phase.key, fails, Refused);
    case Insert(reply) => RequestsReportNothing(sh, phase.payment, phase.key, false, reply);
    case _ =>
  }

  lemma WorkersStayWorkers(w: World, sh: Shared, phase: Phase, action: Action)
    requires Can(w, sh, phase, action) && IsWorker(phase)
    ensures IsWorker(Act(w, sh, phase, action).1)
  {
  }

  lemma WorkerActs(w: World, s: State, actor: nat, action: Action)
    requires RowsKeyed(s.shared.table) && Enabled(w, s, By(actor, action))
    requires IsWorker(PhaseOf(s, actor)) || action.StartWorker?
    requires OneWorker(s) ==> Lockstep(s)
    ensures OneWorker(Step(w, s, By(actor, action))) ==> Lockstep(Step(w, s, By(actor, action)))
  {
    var s', phase := Step(w, s, By(actor, action)), PhaseOf(s, actor);
    if OneWorker(s') {
      var phase' := Act(w, s.shared, phase, action).1;
      assert s'.actors[actor] == phase';
      if action.StartWorker? {
        assert phase' == Idle;
      }
      assert IsWorker(phase') by {
        if !action.StartWorker? {
          WorkersStayWorkers(w, s.shared, phase, action);
        }
      }
      forall a | a in s.actors && a != actor ensures !IsWorker(s.actors[a]) {
        assert s'.actors[a] == s.actors[a];
      }
      assert OneWorker(s);
      assert InStep(s.shared, phase);
      WorkerStaysInStep(w, s.shared, phase, action);
    }
  }

  lemma StepKeepsLockstep(w: World, s: State, move: Move)
    requires RowsKeyed(s.shared.table) && Enabled(w, s, move)
    requires OneWorker(s) ==> Lockstep(s)
    ensures OneWorker(Step(w, s, move)) ==> Lockstep(Step(w, s, move))
  {
    if move.By? {
      var actor, action := move.actor, move.action;
      var phase := PhaseOf(s, actor);
      var s' := Step(w, s, move);
      if IsWorker(phase) || action.StartWorker? {
        WorkerActs(w, s, actor, action);
      } else {
        OthersReportNothing(w, s.shared, phase, action);
        assert forall a :: a in s'.actors && IsWorker(s'.actors[a]) ==> a in s.actors && s.actors[a] == s'.actors[a];
        assert forall a :: a in s.actors && IsWorker(s.actors[a]) ==> a in s'.actors && s'.actors[a] == s.actors[a];
      }
    }
  }

  lemma {:induction false} RunKeepsLockstep(w: World, s: State, moves: seq<Move>)
    requires Inv(w, s) && IsRun(w, s, moves) && (OneWorker(s) ==> Lockstep(s))
    ensures OneWorker(After(w, s, moves)) ==> Lockstep(After(w, s, moves))
    decreases |moves|
  {
    if moves != [] {
      StepOk(w, s, moves[0]);
      StepKeepsLockstep(w, s, moves[0]);
      RunKeepsLockstep(w, Step(w, s, moves[0]), moves[1..]);
    }
  }

  /**
   * With one worker, whatever else runs beside it: the enqueues it tried are
   * the transitions it took, in the same order, at most the last one still
   * outstanding.
   */
  lemma EnqueuesFollowTransitions(w: World, s: State)
    requires Reachable(w, s) && OneWorker(s)
    ensures TriedChanges(s.shared.emissions) <= ReportedChanges(s.shared.log)
    ensures |ReportedChanges(s.shared.log)| <= |TriedChanges(s.shared.emissions)| + 1
  {
    var now, moves :| IsRun(w, Initial(now), moves) && After(w, Initial(now), moves) == s;
    assert Lockstep(Initial(now));
    RunKeepsLockstep(w, Initial(now), moves);
    if a :| a in s.actors && IsWorker(s.actors[a]) {
      assert InStep(s.shared, s.actors[a]);
    }
  }

  // === Payment by payment

  function EmittedFor(id: Uuid): Emission -> bool {
    (m: Emission) => m.event.payment.id == id
  }

  function ChangesOf(id: Uuid): Change -> bool {
    (c: Change) => c.id == id
  }

  lemma {:induction false} TriesOfOnePayment(emissions: seq<Emission>, id: Uuid)
    ensures Map(Filter(emissions, EmittedFor(id)), (m: Emission) => ChangeOf(m.event))
         == Filter(TriedChanges(emissions), ChangesOf(id))
  {
    var change := (m: Emission) => ChangeOf(m.event);
    if emissions != [] {
      var init, last := emissions[..|emissions| - 1], emissions[|emissions| - 1];
      assert emissions == init + [last];
      TriesOfOnePayment(init, id);
      FilterConcat(init, [last], EmittedFor(id));
      FilterOne(last, EmittedFor(id));
      FilterConcat(TriedChanges(init), [ChangeOf(last.event)], ChangesOf(id));
      FilterOne(ChangeOf(last.event), ChangesOf(id));
      assert Map(Filter(emissions, EmittedFor(id)), change)
          == Map(Filter(init, EmittedFor(id)), change)
           + if last.event.payment.id == id then [ChangeOf(last.event)] else [];
    }
  }

  lemma FilterPrefix<T(!new)>(a: seq<T>, b: seq<T>, p: T -> bool)
    requires a <= b && |b| <= |a| + 1
    ensures Filter(a, p) <= Filter(b, p) && |Filter(b, p)| <= |Filter(a, p)| + 1
  {
    assert b == a + b[|a|..];
    FilterConcat(a, b[|a|..], p);
  }

  /** And those tries are that payment's own transitions, in order, up to one still outstanding. */
  lemma TriesFollowThePaymentsHistory(w: World, s: State, id: Uuid)
    requires Reachable(w, s) && OneWorker(s)
    ensures
      var tries := Map(Filter(s.shared.emissions, EmittedFor(id)), (m: Emission) => ChangeOf(m.event));
      var taken := Filter(ReportedChanges(s.shared.log), ChangesOf(id));
      tries <= taken && |taken| <= |tries| + 1
  {
    EnqueuesFollowTransitions(w, s);
    TriesOfOnePayment(s.shared.emissions, id);
    FilterPrefix(TriedChanges(s.shared.emissions), ReportedChanges(s.shared.log), ChangesOf(id));
  }
}
