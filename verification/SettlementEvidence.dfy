/**
 * When a payment's record bears out what the ledger says of it. Workers keep
 * that of themselves; a service call keeps it exactly when the ledger bears
 * the call out at the moment it commits.
 */
module SettlementEvidence {
  import opened Wrappers
  import opened PaymentCore
  import opened PaymentTable
  import opened Horizon
  import opened Settlement
  import opened SettlementSafety

  // === One update

  /** What the ledger must say for a row to be moved to this status. A caller can look it up beforehand. */
  ghost predicate BornOut(w: World, ledger: seq<LedgerRecord>, row: Row, target: PaymentStatus, hash: Option<string>) {
    match target
    case Pending => false
    case Detected => hash.Some? && Backed(w, ledger, FromRow(row), hash.value)
    case Confirmed => row.txHash.Some? && w.successful(row.txHash.value)
    case Failed => row.txHash.Some? && !w.successful(row.txHash.value)
    case Expired => true
  }

  /** An update that takes effect keeps the row borne out exactly when the ledger bears the update out. */
  lemma UpdateKeepsEvidenceIff(
    w: World, sh: Shared, id: Uuid, target: PaymentStatus, hash: Option<string>, byWorker: bool, reported: bool)
    requires TableOk(sh.table) && id in sh.table.rows && RowBacked(w, sh.ledger, sh.table.rows[id])
    requires HashGivenIffDetected(target, hash)
    requires Perform(sh, id, target, hash, byWorker, reported).1.Ok?
    ensures RowBacked(w, sh.ledger, Perform(sh, id, target, hash, byWorker, reported).0.table.rows[id])
       <==> BornOut(w, sh.ledger, sh.table.rows[id], target, hash)
  {
    var before, after := sh.table.rows[id], Perform(sh, id, target, hash, byWorker, reported).0.table.rows[id];
    assert HashMatchesStatus(before);
    BackedIsAboutFixedColumns(w, sh.ledger, FromRow(before), FromRow(after), OrEmpty(after.txHash));
  }

  /** What a worker asks for is borne out, stale as its snapshot may be. */
  lemma JustifiedIsBornOut(w: World, sh: Shared, p: Payment, next: PaymentStatus, hash: Option<string>)
    requires IsSnapshot(sh.table, p) && Justified(w, sh, p, next, hash)
    ensures BornOut(w, sh.ledger, sh.table.rows[p.id], next, hash)
  {
    BackedIsAboutFixedColumns(w, sh.ledger, p, FromRow(sh.table.rows[p.id]), OrEmpty(hash));
  }

  // === One step

  ghost predicate HasEvidence(w: World, sh: Shared, id: Uuid) {
    id in sh.table.rows ==> RowBacked(w, sh.ledger, sh.table.rows[id])
  }

  /** A service call takes effect on this payment although the ledger does not bear it out. */
  ghost predicate Unfounded(w: World, s: State, move: Move, id: Uuid) {
    && move.By? && move.action.Commit? && PhaseOf(s, move.actor).Transitioning?
    && var call := PhaseOf(s, move.actor);
       && call.id == id && !move.action.reply.Refused?
       && UpdateStatus(s.shared.table, id, call.target, call.hash, s.shared.now).1.Ok?
       && !BornOut(w, s.shared.ledger, s.shared.table.rows[id], call.target, call.hash)
  }

  /** The row is not touched, or the ledger has grown. */
  lemma EvidenceStays(w: World, a: Shared, b: Shared, id: Uuid)
    requires HasEvidence(w, a, id) && a.ledger <= b.ledger && id in a.table.rows
    requires id in b.table.rows && b.table.rows[id] == a.table.rows[id]
    ensures HasEvidence(w, b, id)
  {
    assert forall r :: r in a.ledger ==> r in b.ledger;
  }

  lemma WorkerKeepsEvidence(w: World, sh: Shared, phase: Phase, reply: Reply, id: Uuid)
    requires TableOk(sh.table) && PhaseOk(w, sh, phase) && phase.Updating? && HasEvidence(w, sh, id)
    ensures HasEvidence(w, Updated(sh, phase.payment, phase.next, phase.hash, phase.todo, reply).0, id)
  {
    var p, next, hash := phase.payment, phase.next, phase.hash;
    if !reply.Refused? && Perform(sh, p.id, next, hash, true, reply.Replied?).1.Ok? && p.id == id {
      JustifiedIsBornOut(w, sh, p, next, hash);
      UpdateKeepsEvidenceIff(w, sh, id, next, hash, true, reply.Replied?);
    }
  }

  lemma CommittedKeepsEvidenceIff(
    w: World, sh: Shared, called: Uuid, target: PaymentStatus, hash: Option<string>, reply: Reply, id: Uuid)
    requires TableOk(sh.table) && HashGivenIffDetected(target, hash) && HasEvidence(w, sh, id)
    ensures HasEvidence(w, Committed(sh, called, target, hash, reply), id) <==>
      !(&& called == id && !reply.Refused? && UpdateStatus(sh.table, id, target, hash, sh.now).1.Ok?
        && !BornOut(w, sh.ledger, sh.table.rows[id], target, hash))
  {
    if !reply.Refused? && Perform(sh, called, target, hash, false, reply.Replied?).1.Ok? {
      if called == id {
        UpdateKeepsEvidenceIff(w, sh, id, target, hash, false, reply.Replied?);
      } else if id in sh.table.rows {
        EvidenceStays(w, sh, Committed(sh, called, target, hash, reply), id);
      }
    }
  }

  lemma CommitKeepsEvidenceIff(w: World, s: State, actor: nat, reply: Reply, id: Uuid)
    requires Inv(w, s) && Enabled(w, s, By(actor, Commit(reply))) && HasEvidence(w, s.shared, id)
    ensures HasEvidence(w, Step(w, s, By(actor, Commit(reply))).shared, id)
       <==> !Unfounded(w, s, By(actor, Commit(reply)), id)
  {
    var call := PhaseOf(s, actor);
    assert PhaseOk(w, s.shared, call);
    CommittedKeepsEvidenceIff(w, s.shared, call.id, call.target, call.hash, reply, id);
  }

  lemma InsertKeepsEvidence(w: World, sh: Shared, phase: Phase, reply: Reply, id: Uuid)
    requires PhaseOk(w, sh, phase) && phase.Inserting? && HasEvidence(w, sh, id)
    ensures HasEvidence(w, Inserted(sh, phase.payment, phase.key, reply), id)
  {
  }

  lemma ActKeepsEvidence(w: World, s: State, actor: nat, action: Action, id: Uuid)
    requires Inv(w, s) && Enabled(w, s, By(actor, action)) && HasEvidence(w, s.shared, id) && !action.Commit?
    ensures HasEvidence(w, Step(w, s, By(actor, action)).shared, id)
  {
    var phase := PhaseOf(s, actor);
    assert PhaseOk(w, s.shared, phase);
    match action
    case Update(reply) => WorkerKeepsEvidence(w, s.shared, phase, reply, id);
    case Insert(reply) => InsertKeepsEvidence(w, s.shared, phase, reply, id);
    case FindKey(fails) => assert Looked(s.shared, phase.payment, phase.key, fails).0.table == s.shared.table;
    case _ =>
  }

  lemma StepKeepsEvidenceIff(w: World, s: State, move: Move, id: Uuid)
    requires Inv(w, s) && Enabled(w, s, move) && HasEvidence(w, s.shared, id)
    ensures HasEvidence(w, Step(w, s, move).shared, id) <==> !Unfounded(w, s, move, id)
  {
    match move
    case Tick(_) =>
    case Append(record) =>
      if id in s.shared.table.rows {
        EvidenceStays(w, s.shared, Step(w, s, move).shared, id);
      }
    case By(actor, action) =>
      if action.Commit? {
        CommitKeepsEvidenceIff(w, s, actor, action.reply, id);
      } else {
        ActKeepsEvidence(w, s, actor, action, id);
      }
  }

  // === Whole runs

  /** The payment's row is borne out in every state of the run. */
  ghost predicate EvidenceThroughout(w: World, s: State, moves: seq<Move>, id: Uuid)
    requires IsRun(w, s, moves)
    decreases |moves|
  {
    && HasEvidence(w, s.shared, id)
    && (moves == [] || EvidenceThroughout(w, Step(w, s, moves[0]), moves[1..], id))
  }

  /** Every service call that took effect on the payment was borne out when it did. */
  ghost predicate CallsBornOut(w: World, s: State, moves: seq<Move>, id: Uuid)
    requires IsRun(w, s, moves)
    decreases |moves|
  {
    moves == [] || (!Unfounded(w, s, moves[0], id) && CallsBornOut(w, Step(w, s, moves[0]), moves[1..], id))
  }

  lemma {:induction false} EvidenceFrom(w: World, s: State, moves: seq<Move>, id: Uuid)
    requires Inv(w, s) && IsRun(w, s, moves) && HasEvidence(w, s.shared, id)
    ensures EvidenceThroughout(w, s, moves, id) <==> CallsBornOut(w, s, moves, id)
    decreases |moves|
  {
    if moves != [] {
      var next := Step(w, s, moves[0]);
      StepKeepsEvidenceIff(w, s, moves[0], id);
      StepOk(w, s, moves[0]);
      if HasEvidence(w, next.shared, id) {
        EvidenceFrom(w, next, moves[1..], id);
      }
    }
  }

  /**
   * Over any run, with any number of workers: the ledger bears a payment's row
   * out in every state if and only if it bore out each service call that took
   * effect on the payment, at the moment it did.
   */
  lemma EvidenceIffCallsBornOut(w: World, now: Time, moves: seq<Move>, id: Uuid)
    requires IsRun(w, Initial(now), moves)
    ensures EvidenceThroughout(w, Initial(now), moves, id) <==> CallsBornOut(w, Initial(now), moves, id)
  {
    EvidenceFrom(w, Initial(now), moves, id);
  }

  lemma {:induction false} EvidenceAtTheEnd(w: World, s: State, moves: seq<Move>, id: Uuid)
    requires IsRun(w, s, moves) && EvidenceThroughout(w, s, moves, id)
    ensures HasEvidence(w, After(w, s, moves).shared, id)
    decreases |moves|
  {
    if moves != [] {
      EvidenceAtTheEnd(w, Step(w, s, moves[0]), moves[1..], id);
    }
  }
}
