/**
 * The two cases in which the payment repositories differ do come about: each
 * is reached from two empty services by ordinary calls.
 */
module RepositoryDisagreements {
  import opened Wrappers
  import opened Decimals
  import opened Powers
  import opened Amounts
  import opened PaymentCore
  import opened PaymentService
  import opened RepositorySimulation
  import PaymentRepository
  import PaymentTable
  import SettlementCreation

  const NO_PAYMENTS := PaymentRepository.Memory(map[], map[])

  /** Two services just started are in related states. */
  lemma FreshServicesAreRelated()
    ensures Related(NO_PAYMENTS, PaymentTable.EMPTY)
  {
  }

  // === An amount the column cannot hold

  /** Ten to the thirteenth. */
  function LargeAmount(): string {
    ToString(Decimal(10_000_000_000_000, 0))
  }

  lemma LargeAmountIsValid()
    ensures Valid(LargeAmount()) && !FitsNumeric(LargeAmount())
  {
    PowersOfTen();
    PrintParseRoundTrip(Decimal(10_000_000_000_000, 0));
    StoredIffBelowLimit(Decimal(10_000_000_000_000, 0));
  }

  /** The first creation of all: memory stores the payment, the table answers Database. */
  lemma LargeAmountTellsThemApart(r: Request, defaultDestination: string)
    requires r.amount == LargeAmount()
    ensures Related(NO_PAYMENTS, PaymentTable.EMPTY) && FreshId(NO_PAYMENTS, Creation(r))
    ensures Disagree(NO_PAYMENTS, Creation(r))
    ensures Answer(InMemory(NO_PAYMENTS), Creation(r), defaultDestination).1 == Ok(Requested(r, defaultDestination))
    ensures Answer(Postgres(PaymentTable.EMPTY), Creation(r), defaultDestination).1 == Err(Repository(Database))
  {
    LargeAmountIsValid();
    LargeAmountIsRefused(NO_PAYMENTS, PaymentTable.EMPTY, Requested(r, defaultDestination), r.key);
  }

  // === A hash offered twice

  function AfterCalls(s: Backend, calls: seq<PaymentCall>, defaultDestination: string): Backend
    decreases |calls|
  {
    if calls == [] then s else AfterCalls(Answer(s, calls[0], defaultDestination).0, calls[1..], defaultDestination)
  }

  function TenFor(id: Uuid, reference: string): Request {
    Request("10", reference, None, None, None, id, "memo", 0)
  }

  const SOME_TIME := Clocks(0, 0)

  function FirstOf(defaultDestination: string): Payment {
    Requested(TenFor(1, "order-1"), defaultDestination)
  }

  function SecondOf(defaultDestination: string): Payment {
    Requested(TenFor(2, "order-2"), defaultDestination)
  }

  function OneStored(defaultDestination: string): PaymentRepository.Memory {
    PaymentRepository.Memory(map[1 := FirstOf(defaultDestination)], map[])
  }

  function TwoStored(defaultDestination: string): PaymentRepository.Memory {
    PaymentRepository.Memory(map[1 := FirstOf(defaultDestination), 2 := SecondOf(defaultDestination)], map[])
  }

  function OneDetected(defaultDestination: string): PaymentRepository.Memory {
    var detected := PaymentRepository.Moved(FirstOf(defaultDestination), Detected, Some("tx"), SOME_TIME.process);
    PaymentRepository.Memory(map[1 := detected, 2 := SecondOf(defaultDestination)], map[])
  }

  /** A call that is no exception takes related states to related states. */
  lemma TableFollows(
    m: PaymentRepository.Memory, t: PaymentTable.Table, call: PaymentCall, m': PaymentRepository.Memory,
    defaultDestination: string)
    returns (t': PaymentTable.Table)
    requires Related(m, t) && FreshId(m, call) && !Disagree(m, call)
    requires Answer(InMemory(m), call, defaultDestination).0 == InMemory(m')
    ensures Related(m', t') && Answer(Postgres(t), call, defaultDestination).0 == Postgres(t')
  {
    PaymentCallsAgree(m, t, call, defaultDestination);
    t' := Answer(Postgres(t), call, defaultDestination).0.table;
  }

  lemma TenIsFine(m: PaymentRepository.Memory, r: Request)
    requires r.amount == "10"
    ensures Valid(r.amount) && !Disagree(m, Creation(r))
  {
    SettlementCreation.TenIsAnAmount();
  }

  lemma FirstIsCreated(t: PaymentTable.Table, defaultDestination: string) returns (t': PaymentTable.Table)
    requires Related(NO_PAYMENTS, t)
    ensures Answer(InMemory(NO_PAYMENTS), Creation(TenFor(1, "order-1")), defaultDestination).0
         == InMemory(OneStored(defaultDestination))
    ensures Answer(Postgres(t), Creation(TenFor(1, "order-1")), defaultDestination).0 == Postgres(t')
    ensures Related(OneStored(defaultDestination), t')
  {
    TenIsFine(NO_PAYMENTS, TenFor(1, "order-1"));
    t' := TableFollows(NO_PAYMENTS, t, Creation(TenFor(1, "order-1")), OneStored(defaultDestination),
                       defaultDestination);
  }

  lemma MemoryStoresSecond(defaultDestination: string)
    ensures Answer(InMemory(OneStored(defaultDestination)), Creation(TenFor(2, "order-2")), defaultDestination).0
         == InMemory(TwoStored(defaultDestination))
    ensures !Disagree(OneStored(defaultDestination), Creation(TenFor(2, "order-2")))
  {
    var stored := OneStored(defaultDestination);
    TenIsFine(stored, TenFor(2, "order-2"));
    assert "order-1"[6] != "order-2"[6];
    assert !PaymentRepository.ReferenceTaken(stored, "order-2");
    assert stored.payments[2 := SecondOf(defaultDestination)] == TwoStored(defaultDestination).payments;
  }

  lemma SecondIsCreated(t: PaymentTable.Table, defaultDestination: string) returns (t': PaymentTable.Table)
    requires Related(OneStored(defaultDestination), t)
    ensures Answer(InMemory(OneStored(defaultDestination)), Creation(TenFor(2, "order-2")), defaultDestination).0
         == InMemory(TwoStored(defaultDestination))
    ensures Answer(Postgres(t), Creation(TenFor(2, "order-2")), defaultDestination).0 == Postgres(t')
    ensures Related(TwoStored(defaultDestination), t')
  {
    MemoryStoresSecond(defaultDestination);
    t' := TableFollows(OneStored(defaultDestination), t, Creation(TenFor(2, "order-2")),
                       TwoStored(defaultDestination), defaultDestination);
  }

  lemma MemoryDetects(defaultDestination: string)
    ensures Answer(InMemory(TwoStored(defaultDestination)), MarkDetected(1, "tx", SOME_TIME), defaultDestination).0
         == InMemory(OneDetected(defaultDestination))
    ensures !Disagree(TwoStored(defaultDestination), MarkDetected(1, "tx", SOME_TIME))
  {
    var stored, detected := TwoStored(defaultDestination).payments, OneDetected(defaultDestination).payments;
    assert stored[1 := detected[1]] == detected;
  }

  lemma FirstIsDetected(t: PaymentTable.Table, defaultDestination: string) returns (t': PaymentTable.Table)
    requires Related(TwoStored(defaultDestination), t)
    ensures Answer(InMemory(TwoStored(defaultDestination)), MarkDetected(1, "tx", SOME_TIME), defaultDestination).0
         == InMemory(OneDetected(defaultDestination))
    ensures Answer(Postgres(t), MarkDetected(1, "tx", SOME_TIME), defaultDestination).0 == Postgres(t')
    ensures Related(OneDetected(defaultDestination), t')
  {
    MemoryDetects(defaultDestination);
    t' := TableFollows(TwoStored(defaultDestination), t, MarkDetected(1, "tx", SOME_TIME),
                       OneDetected(defaultDestination), defaultDestination);
  }

  /** The three calls that lead there. */
  function TwoPaymentsOneHash(): seq<PaymentCall> {
    [Creation(TenFor(1, "order-1")), Creation(TenFor(2, "order-2")), MarkDetected(1, "tx", SOME_TIME)]
  }

  lemma ThreeCalls(s: Backend, a: PaymentCall, b: PaymentCall, c: PaymentCall, defaultDestination: string)
    ensures AfterCalls(s, [a, b, c], defaultDestination)
         == Answer(Answer(Answer(s, a, defaultDestination).0, b, defaultDestination).0, c, defaultDestination).0
  {
    var first := Answer(s, a, defaultDestination).0;
    var second := Answer(first, b, defaultDestination).0;
    assert [a, b, c][1..] == [b, c] && [b, c][1..] == [c] && [c][1..] == [];
    assert AfterCalls(second, [c], defaultDestination) == Answer(second, c, defaultDestination).0;
    assert AfterCalls(first, [b, c], defaultDestination) == AfterCalls(second, [c], defaultDestination);
  }

  /**
   * Two payments, one detected under "tx", after the same three calls to each
   * service: to detect the other under "tx" too succeeds in memory, and is a
   * Conflict at the table.
   */
  lemma ReusedHashTellsThemApart(defaultDestination: string, clocks: Clocks)
    returns (m: PaymentRepository.Memory, t: PaymentTable.Table)
    ensures AfterCalls(InMemory(NO_PAYMENTS), TwoPaymentsOneHash(), defaultDestination) == InMemory(m)
    ensures AfterCalls(Postgres(PaymentTable.EMPTY), TwoPaymentsOneHash(), defaultDestination) == Postgres(t)
    ensures Related(m, t) && Disagree(m, MarkDetected(2, "tx", clocks))
    ensures Answer(InMemory(m), MarkDetected(2, "tx", clocks), defaultDestination).1.Ok?
    ensures Answer(Postgres(t), MarkDetected(2, "tx", clocks), defaultDestination).1 == Err(Repository(Conflict))
  {
    m := OneDetected(defaultDestination);
    FreshServicesAreRelated();
    t := FirstIsCreated(PaymentTable.EMPTY, defaultDestination);
    t := SecondIsCreated(t, defaultDestination);
    t := FirstIsDetected(t, defaultDestination);
    ThreeCalls(InMemory(NO_PAYMENTS), Creation(TenFor(1, "order-1")), Creation(TenFor(2, "order-2")),
               MarkDetected(1, "tx", SOME_TIME), defaultDestination);
    ThreeCalls(Postgres(PaymentTable.EMPTY), Creation(TenFor(1, "order-1")), Creation(TenFor(2, "order-2")),
               MarkDetected(1, "tx", SOME_TIME), defaultDestination);
    assert m.payments[1].txHash == Some("tx");
    SharedHashIsRefused(m, t, 2, "tx", clocks);
  }
}
