/** Idempotent creation: what concurrent requests under one key are told, and what they leave behind. */
module SettlementCreation {
  import opened Wrappers
  import opened Decimals
  import opened Amounts
  import opened PaymentCore
  import opened PaymentTable
  import opened Settlement
  import opened SettlementSafety

  // === Every interleaving

  /** All requests answered Ok under one key were given the same payment, which is stored under that key. */
  lemma SameKeySamePayment(w: World, s: State, a: Answer, b: Answer)
    requires Reachable(w, s) && a in s.shared.answers && b in s.shared.answers
    requires a.key.Some? && a.key == b.key && a.result.Ok? && b.result.Ok?
    ensures a.result.value.id == b.result.value.id
    ensures a.key.value in s.shared.table.keys && s.shared.table.keys[a.key.value] == a.result.value.id
    ensures a.result.value.id in s.shared.table.rows
  {
    ReachableOk(w, s);
    assert AnswerOk(s.shared.table, a) && AnswerOk(s.shared.table, b);
  }

  /** A key is written once, never points nowhere, and references stay unique. */
  lemma KeysAreWriteOnce(w: World, s: State, moves: seq<Move>, key: string)
    requires Reachable(w, s) && IsRun(w, s, moves) && key in s.shared.table.keys
    ensures
      var later := After(w, s, moves).shared.table;
      && key in later.keys && later.keys[key] == s.shared.table.keys[key]
      && later.keys[key] in later.rows
      && UniqueReferences(later)
  {
    ReachableOk(w, s);
    RunOk(w, s, moves);
  }

  // === What one request is told

  predicate Storable(p: Payment) {
    FromStr(p.amount).Some? && Store(FromStr(p.amount).value).Some?
  }

  /** Both inserts would be accepted: the amount fits and no uniqueness constraint stands in the way. */
  predicate Insertable(t: Table, p: Payment, key: Option<string>) {
    Storable(p) && !Clashes(t, p, key)
  }

  lemma KeysAreFound(t: Table, key: string)
    requires RowsKeyed(t) && KeysPointToRows(t)
    ensures FindByIdempotencyKey(t, key).Some? <==> key in t.keys
    ensures key in t.keys ==> FindByIdempotencyKey(t, key).value.id == t.keys[key]
  {
  }

  /** A request replays the stored payment exactly when its key is there at its own lookup. */
  lemma LookupReplaysIffKeyStored(w: World, s: State, actor: nat, p: Payment, key: string)
    requires Reachable(w, s) && PhaseOf(s, actor) == Creating(p, Some(key))
    ensures
      var found := FindByIdempotencyKey(s.shared.table, key);
      var s' := Step(w, s, By(actor, FindKey(false)));
      && (found.Some? <==> key in s.shared.table.keys)
      && (if found.Some? then
            && found.value.id == s.shared.table.keys[key]
            && s'.shared == s.shared.(answers := s.shared.answers + [Answer(Some(key), Ok(found.value))])
            && PhaseOf(s', actor) == Done
          else
            s'.shared == s.shared && PhaseOf(s', actor) == Inserting(p, Some(key)))
  {
    ReachableOk(w, s);
    KeysAreFound(s.shared.table, key);
    var (shared, phase) := Looked(s.shared, p, Some(key), false);
    assert Step(w, s, By(actor, FindKey(false))) == State(shared, s.actors[actor := phase]);
  }

  /** A lookup that fails ends its request with an error and no insert; without a key there is no lookup to fail. */
  lemma LookupMayFail(w: World, s: State, actor: nat, p: Payment, key: Option<string>)
    requires PhaseOf(s, actor) == Creating(p, key)
    ensures
      var s' := Step(w, s, By(actor, FindKey(true)));
      if key.Some? then
        && s'.shared == s.shared.(answers := s.shared.answers + [Answer(key, Err(Repository(Database)))])
        && PhaseOf(s', actor) == Done
      else s'.shared == s.shared && PhaseOf(s', actor) == Inserting(p, key)
  {
    var (shared, phase) := Looked(s.shared, p, key, true);
    assert Step(w, s, By(actor, FindKey(true))) == State(shared, s.actors[actor := phase]);
  }

  /** The two inserts on their own: all or nothing. */
  lemma InsertsAreAllOrNothing(t: Table, p: Payment, key: Option<string>)
    requires Valid(p.amount)
    ensures
      var (t', r) := Create(t, p, key);
      if Insertable(t, p, key) then
        && p.id !in t.rows && t'.rows == t.rows[p.id := t'.rows[p.id]]
        && t'.keys == (if key.Some? then t.keys[key.value := p.id] else t.keys)
        && r == Ok(FromRow(t'.rows[p.id]))
        && AmountsMatch(p.amount, r.value.amount)
        && r.value == p.(amount := r.value.amount)
      else
        t' == t && r == Err(if Storable(p) then Conflict else Database)
  {
    if Insertable(t, p, key) {
      StorageRoundTrip(p.amount);
    }
  }

  /**
   * A request that did not find its key creates the payment and its key
   * exactly when nothing clashes at the moment it inserts. Otherwise it leaves
   * neither a payment nor a key row, and is told DuplicateReference whichever
   * constraint it broke.
   */
  lemma InsertOutcome(sh: Shared, p: Payment, key: Option<string>)
    requires Valid(p.amount)
    ensures
      var sh' := Inserted(sh, p, key, Replied);
      && sh'.table == Create(sh.table, p, key).0
      && sh'.answers == sh.answers + [Answer(key,
           if Insertable(sh.table, p, key) then Ok(FromRow(sh'.table.rows[p.id]))
           else if Storable(p) then Err(DuplicateReference(p.reference))
           else Err(Repository(Database)))]
      && (!Insertable(sh.table, p, key) ==> sh'.table == sh.table)
  {
    InsertsAreAllOrNothing(sh.table, p, key);
  }

  /**
   * With a database that may refuse, or lose its reply: who is told Ok has a
   * payment stored, and who is told of a database error has one exactly when
   * the reply to an insert that took effect was lost.
   */
  lemma DatabaseErrorMayHideAPayment(sh: Shared, p: Payment, key: Option<string>, reply: Reply) returns (told: Answer)
    requires Valid(p.amount)
    ensures
      var sh' := Inserted(sh, p, key, reply);
      && sh' == sh.(table := sh'.table, answers := sh.answers + [told]) && told.key == key
      && sh'.table == (if reply.Refused? then sh.table else Create(sh.table, p, key).0)
      && (sh'.table != sh.table <==> Insertable(sh.table, p, key) && !reply.Refused?)
      && (told.result.Ok? <==> Insertable(sh.table, p, key) && reply.Replied?)
      && (told.result == Err(Repository(Database)) <==>
            reply.Refused? || !Storable(p) || (Insertable(sh.table, p, key) && reply.ReplyLost?))
      && (told.result.Err? ==> told.result.error in {DuplicateReference(p.reference), Repository(Database)})
  {
    InsertsAreAllOrNothing(sh.table, p, key);
    told := Inserted(sh, p, key, reply).answers[|sh.answers|];
  }

  /** A request whose reference nobody has is refused as a duplicate exactly when its key is there at its insert. */
  lemma RefusedAsDuplicateIffKeyTaken(sh: Shared, p: Payment, key: Option<string>) returns (told: Answer)
    requires Valid(p.amount) && Storable(p) && p.txHash.None?
    requires p.id !in sh.table.rows && !ReferenceTaken(sh.table, p.reference)
    ensures Inserted(sh, p, key, Replied).answers == sh.answers + [told] && told.key == key
    ensures told.result == Err(DuplicateReference(p.reference)) <==> KeyTaken(sh.table, key)
    ensures told.result.Ok? <==> !KeyTaken(sh.table, key)
  {
    InsertOutcome(sh, p, key);
    told := Inserted(sh, p, key, Replied).answers[|sh.answers|];
  }

  lemma MissedKeyIsNotStored(w: World, s: State, actor: nat, p: Payment, key: string)
    requires Reachable(w, s) && PhaseOf(s, actor) == Creating(p, Some(key))
    ensures
      var looked := Step(w, s, By(actor, FindKey(false)));
      Reachable(w, looked) && (PhaseOf(looked, actor) == Inserting(p, Some(key)) ==> key !in looked.shared.table.keys)
  {
    LookupReplaysIffKeyStored(w, s, actor, p, key);
    RunsReach(w, s, By(actor, FindKey(false)));
  }

  lemma InsertingIsValid(w: World, s: State, actor: nat, p: Payment, key: Option<string>)
    requires Inv(w, s) && PhaseOf(s, actor) == Inserting(p, key)
    ensures Valid(p.amount) && p.txHash.None?
  {
    assert PhaseOk(w, s.shared, PhaseOf(s, actor));
  }

  lemma InsertSteps(w: World, s: State, actor: nat, p: Payment, key: Option<string>)
    requires PhaseOf(s, actor) == Inserting(p, key)
    ensures Step(w, s, By(actor, Insert(Replied))).shared == Inserted(s.shared, p, key, Replied)
  {
  }

  /**
   * From the request's own lookup, which sends it on to its insert, over
   * whatever anyone does in between: with a reference still nobody's, it is
   * refused as a duplicate exactly when its key, not stored at the lookup, is
   * stored by then.
   */
  lemma RefusedAsDuplicateIffKeyRaced(
    w: World, s: State, looked: State, inserts: State, actor: nat, p: Payment, key: string, moves: seq<Move>)
    returns (told: Answer)
    requires Reachable(w, s) && PhaseOf(s, actor) == Creating(p, Some(key)) && Storable(p)
    requires looked == Step(w, s, By(actor, FindKey(false))) && PhaseOf(looked, actor) == Inserting(p, Some(key))
    requires IsRun(w, looked, moves) && inserts == After(w, looked, moves)
    requires PhaseOf(inserts, actor) == Inserting(p, Some(key))
    requires p.id !in inserts.shared.table.rows && !ReferenceTaken(inserts.shared.table, p.reference)
    ensures key !in looked.shared.table.keys
    ensures Step(w, inserts, By(actor, Insert(Replied))).shared.answers == inserts.shared.answers + [told]
    ensures told.key == Some(key)
    ensures told.result == Err(DuplicateReference(p.reference)) <==> key in inserts.shared.table.keys
    ensures told.result.Ok? <==> key !in inserts.shared.table.keys
  {
    MissedKeyIsNotStored(w, s, actor, p, key);
    ReachableOk(w, looked);
    RunOk(w, looked, moves);
    InsertingIsValid(w, inserts, actor, p, Some(key));
    InsertSteps(w, inserts, actor, p, Some(key));
    told := RefusedAsDuplicateIffKeyTaken(inserts.shared, p, Some(key));
  }

  // === A race the key does not settle

  lemma ValueOfTen()
    ensures AllDigits("10") && Value("10") == 10
  {
    assert Value("1") == 1 by {
      assert "1"[..0] == "";
    }
    assert "10"[..1] == "1";
  }

  lemma TenIsAnAmount()
    ensures FromStr("10") == Some(Decimal(10, 0)) && Valid("10")
    ensures Store(Decimal(10, 0)) == Some(100_000_000)
  {
    ValueOfTen();
    assert Pow10(7) == 10_000_000 && Pow10(20) == 100_000_000_000_000_000_000 && Pow10(28) > 10;
    ParsesWhole("10");
  }

  function First(now: Time): Payment {
    NewPayment(1, "10", "order-1", "shop", None, now)
  }

  function Second(now: Time): Payment {
    NewPayment(2, "10", "order-2", "shop", None, now)
  }

  /** Two requests under one key, both past their lookup before either has inserted. */
  ghost predicate BothLookedUp(s: State, now: Time) {
    && s.shared == Initial(now).shared
    && PhaseOf(s, 1) == Inserting(First(now), Some("key"))
    && PhaseOf(s, 2) == Inserting(Second(now), Some("key"))
  }

  /** A request looks its key up and does not find it. */
  lemma LooksUp(w: World, s0: State, a: nat, p: Payment, now: Time) returns (s: State)
    requires Reachable(w, s0) && s0.shared == Initial(now).shared && PhaseOf(s0, a) == Fresh
    requires Valid(p.amount) && p == NewPayment(p.id, p.amount, p.reference, p.destination, p.memo, now)
    ensures Reachable(w, s) && s == State(s0.shared, s0.actors[a := Inserting(p, Some("key"))])
  {
    RunsReach(w, s0, By(a, StartCreate(p, Some("key"))));
    s := Step(w, s0, By(a, StartCreate(p, Some("key"))));
    RunsReach(w, s, By(a, FindKey(false)));
    s := Step(w, s, By(a, FindKey(false)));
  }

  lemma BothMayLookUpFirst(w: World, now: Time) returns (s: State)
    ensures Reachable(w, s) && BothLookedUp(s, now)
  {
    TenIsAnAmount();
    InitialIsReachable(w, now);
    s := LooksUp(w, Initial(now), 1, First(now), now);
    s := LooksUp(w, s, 2, Second(now), now);
  }

  lemma FirstIsStored(now: Time)
    ensures
      var (t, r) := Create(EMPTY, First(now), Some("key"));
      && Insertable(EMPTY, First(now), Some("key"))
      && t.rows.Keys == {1} && t.rows[1].reference == "order-1" && t.keys == map["key" := 1] && r.Ok?
  {
    TenIsAnAmount();
  }

  lemma FirstInserts(w: World, both: State, now: Time) returns (s: State)
    requires Reachable(w, both) && BothLookedUp(both, now)
    ensures Reachable(w, s) && PhaseOf(s, 2) == Inserting(Second(now), Some("key"))
    ensures |s.shared.answers| == 1 && s.shared.answers[0].key == Some("key") && s.shared.answers[0].result.Ok?
    ensures s.shared.table.rows.Keys == {1} && s.shared.table.rows[1].reference == "order-1"
    ensures s.shared.table.keys == map["key" := 1]
  {
    TenIsAnAmount();
    FirstIsStored(now);
    RunsReach(w, both, By(1, Insert(Replied)));
    InsertOutcome(both.shared, First(now), Some("key"));
    s := Step(w, both, By(1, Insert(Replied)));
  }

  /**
   * The key does not settle this race: of two concurrent first requests the
   * later one is refused, not replayed, and is told its reference is a
   * duplicate although no stored payment has that reference.
   */
  lemma RacingRequestIsNotReplayed(w: World, now: Time) returns (s: State)
    ensures Reachable(w, s)
    ensures |s.shared.answers| == 2
    ensures s.shared.answers[0].key == s.shared.answers[1].key == Some("key")
    ensures s.shared.answers[0].result.Ok?
    ensures s.shared.answers[1].result == Err(DuplicateReference("order-2"))
    ensures !ReferenceTaken(s.shared.table, "order-2") && 2 !in s.shared.table.rows
  {
    var both := BothMayLookUpFirst(w, now);
    var mid := FirstInserts(w, both, now);
    TenIsAnAmount();
    RunsReach(w, mid, By(2, Insert(Replied)));
    assert KeyTaken(mid.shared.table, Some("key"));
    InsertOutcome(mid.shared, Second(now), Some("key"));
    s := Step(w, mid, By(2, Insert(Replied)));
  }
}
