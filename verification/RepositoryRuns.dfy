/**
 * Sequences of service calls, listings included, against either payment
 * repository: exactly when a caller cannot tell the two apart.
 */
module RepositoryRuns {
  import opened Wrappers
  import opened Amounts
  import opened Pagination
  import opened PaymentCore
  import opened PaymentService
  import opened RepositorySimulation
  import opened RepositoryListing
  import PaymentRepository
  import PaymentTable

  // === The calls

  datatype Call =
    | About(call: PaymentCall)
    | List(status: Option<PaymentStatus>, page: u32, perPage: u32)

  datatype Reply =
    | One(result: Result<Payment, PaymentError>)
    | Page(listed: Listed)

  function StateAfter(s: Backend, call: Call, defaultDestination: string): Backend {
    match call
    case About(c) => Answer(s, c, defaultDestination).0
    case List(_, _, _) => s
  }

  ghost predicate MayReply(s: Backend, call: Call, defaultDestination: string, reply: Reply) {
    match call
    case About(c) => reply == One(Answer(s, c, defaultDestination).1)
    case List(status, page, perPage) => reply.Page? && MayList(s, status, page, perPage, reply.listed)
  }

  /** Equal outcomes; of pages, equal totals and the same payments up to ties in creation time. */
  ghost predicate SameReply(m: PaymentRepository.Memory, call: Call, a: Reply, b: Reply) {
    match call
    case About(_) => a.One? && b.One? && SameResult(a.result, b.result)
    case List(status, _, _) =>
      && a.Page? && b.Page? && a.listed.total == b.listed.total
      && SameUpToTies(m, status, a.listed.payments, b.listed.payments)
  }

  predicate Possible(m: PaymentRepository.Memory, call: Call) {
    call.About? ==> FreshId(m, call.call)
  }

  predicate Refused(m: PaymentRepository.Memory, call: Call) {
    call.About? && Disagree(m, call.call)
  }

  /** Whatever either side may reply is the same, and the states stay related. */
  ghost predicate AlikeOn(
    m: PaymentRepository.Memory, t: PaymentTable.Table, call: Call, defaultDestination: string)
  {
    var a, b := StateAfter(InMemory(m), call, defaultDestination), StateAfter(Postgres(t), call, defaultDestination);
    && a.InMemory? && b.Postgres? && Related(a.memory, b.table)
    && forall x, y ::
         MayReply(InMemory(m), call, defaultDestination, x) && MayReply(Postgres(t), call, defaultDestination, y)
         ==> SameReply(m, call, x, y)
  }

  lemma AnswersKeepTheirSide(
    m: PaymentRepository.Memory, t: PaymentTable.Table, call: PaymentCall, defaultDestination: string)
    ensures Answer(InMemory(m), call, defaultDestination).0.InMemory?
    ensures Answer(Postgres(t), call, defaultDestination).0.Postgres?
  {
  }

  lemma OneAnswerEach(m: PaymentRepository.Memory, t: PaymentTable.Table, c: PaymentCall, defaultDestination: string)
    ensures AlikeOn(m, t, About(c), defaultDestination)
       <==> Alike(Answer(InMemory(m), c, defaultDestination), Answer(Postgres(t), c, defaultDestination))
  {
    var x, y := One(Answer(InMemory(m), c, defaultDestination).1), One(Answer(Postgres(t), c, defaultDestination).1);
    AnswersKeepTheirSide(m, t, c, defaultDestination);
    assert MayReply(InMemory(m), About(c), defaultDestination, x);
    assert MayReply(Postgres(t), About(c), defaultDestination, y);
    assert SameReply(m, About(c), x, y) <==> SameResult(x.result, y.result);
  }

  lemma ListsAreAlike(
    m: PaymentRepository.Memory, t: PaymentTable.Table, status: Option<PaymentStatus>, page: u32, perPage: u32,
    defaultDestination: string)
    requires Related(m, t)
    ensures AlikeOn(m, t, List(status, page, perPage), defaultDestination)
  {
    var call := List(status, page, perPage);
    forall x, y |
      MayReply(InMemory(m), call, defaultDestination, x) && MayReply(Postgres(t), call, defaultDestination, y)
      ensures SameReply(m, call, x, y)
    {
      ListingsAgree(m, t, status, page, perPage, x.listed, y.listed);
    }
  }

  /** Every service call, listings included: alike if and only if it is not one of the two exceptions. */
  lemma CallsAgree(m: PaymentRepository.Memory, t: PaymentTable.Table, call: Call, defaultDestination: string)
    requires Related(m, t) && Possible(m, call)
    ensures AlikeOn(m, t, call, defaultDestination) <==> !Refused(m, call)
  {
    match call
    case About(c) =>
      OneAnswerEach(m, t, c, defaultDestination);
      PaymentCallsAgree(m, t, c, defaultDestination);
    case List(status, page, perPage) => ListsAreAlike(m, t, status, page, perPage, defaultDestination);
  }

  // === Whole runs

  /** Ids are fresh at every creation. */
  predicate AllPossible(s: Backend, calls: seq<Call>, defaultDestination: string)
    requires s.InMemory?
    decreases |calls|
  {
    calls == [] ||
      (&& Possible(s.memory, calls[0])
       && StateAfter(s, calls[0], defaultDestination).InMemory?
       && AllPossible(StateAfter(s, calls[0], defaultDestination), calls[1..], defaultDestination))
  }

  /** No call of the run is one of the two exceptions when it is made. */
  predicate NoneRefused(s: Backend, calls: seq<Call>, defaultDestination: string)
    requires s.InMemory?
    decreases |calls|
  {
    calls == [] ||
      (&& !Refused(s.memory, calls[0])
       && StateAfter(s, calls[0], defaultDestination).InMemory?
       && NoneRefused(StateAfter(s, calls[0], defaultDestination), calls[1..], defaultDestination))
  }

  /** At every call of the run the replies are the same, and the states stay related to the end. */
  ghost predicate AlikeThroughout(
    m: PaymentRepository.Memory, t: PaymentTable.Table, calls: seq<Call>, defaultDestination: string)
    decreases |calls|
  {
    calls == [] ||
      (&& AlikeOn(m, t, calls[0], defaultDestination)
       && AlikeThroughout(StateAfter(InMemory(m), calls[0], defaultDestination).memory,
                          StateAfter(Postgres(t), calls[0], defaultDestination).table, calls[1..], defaultDestination))
  }

  /** A run of calls is answered alike throughout if and only if none of them is an exception when it is made. */
  lemma {:induction false} RunsAgreeIff(
    m: PaymentRepository.Memory, t: PaymentTable.Table, calls: seq<Call>, defaultDestination: string)
    requires Related(m, t) && AllPossible(InMemory(m), calls, defaultDestination)
    ensures AlikeThroughout(m, t, calls, defaultDestination) <==> NoneRefused(InMemory(m), calls, defaultDestination)
    decreases |calls|
  {
    if calls != [] {
      CallsAgree(m, t, calls[0], defaultDestination);
      if AlikeOn(m, t, calls[0], defaultDestination) {
        RunsAgreeIff(StateAfter(InMemory(m), calls[0], defaultDestination).memory,
                     StateAfter(Postgres(t), calls[0], defaultDestination).table, calls[1..], defaultDestination);
      }
    }
  }

  // === Orderly callers

  ghost predicate Uses(m: PaymentRepository.Memory, ids: set<Uuid>, hashes: set<string>) {
    forall id :: id in m.payments ==>
      id in ids && (m.payments[id].txHash.Some? ==> m.payments[id].txHash.value in hashes)
  }

  lemma UsesAfterTransition(m: PaymentRepository.Memory, id: Uuid, next: PaymentStatus, txHash: Option<string>,
                            clocks: Clocks, ids: set<Uuid>, hashes: set<string>)
    requires Uses(m, ids, hashes) && (txHash.Some? ==> txHash.value in hashes)
    ensures Transition(InMemory(m), id, next, txHash, clocks).0.InMemory?
    ensures Uses(Transition(InMemory(m), id, next, txHash, clocks).0.memory, ids, hashes)
  {
  }

  lemma UsesAfterCreation(m: PaymentRepository.Memory, r: Request, ids: set<Uuid>, hashes: set<string>,
                          defaultDestination: string)
    requires Uses(m, ids, hashes)
    ensures CreatePayment(InMemory(m), r, defaultDestination).0.InMemory?
    ensures Uses(CreatePayment(InMemory(m), r, defaultDestination).0.memory, ids + {r.id}, hashes)
  {
  }

  function IdsAfter(ids: set<Uuid>, call: Call): set<Uuid> {
    if call.About? && call.call.Creation? then ids + {call.call.request.id} else ids
  }

  function HashesAfter(hashes: set<string>, call: Call): set<string> {
    if call.About? && call.call.MarkDetected? then hashes + {call.call.txHash} else hashes
  }

  predicate Fits(call: Call, ids: set<Uuid>, hashes: set<string>) {
    match call
    case About(Creation(r)) => r.id !in ids && (Valid(r.amount) ==> FitsNumeric(r.amount))
    case About(MarkDetected(_, txHash, _)) => txHash !in hashes
    case _ => true
  }

  /** Ids are fresh, no hash is offered twice, and amounts are below 10^13; `ids` and `hashes` are used up already. */
  predicate Orderly(calls: seq<Call>, ids: set<Uuid>, hashes: set<string>) {
    calls == [] ||
      (Fits(calls[0], ids, hashes) && Orderly(calls[1..], IdsAfter(ids, calls[0]), HashesAfter(hashes, calls[0])))
  }

  /** What a call adds to the ids and hashes in use. */
  lemma UsesAfter(
    m: PaymentRepository.Memory, call: Call, ids: set<Uuid>, hashes: set<string>, defaultDestination: string)
    requires Uses(m, ids, hashes)
    ensures StateAfter(InMemory(m), call, defaultDestination).InMemory?
    ensures Uses(StateAfter(InMemory(m), call, defaultDestination).memory,
                 IdsAfter(ids, call), HashesAfter(hashes, call))
  {
    match call
    case List(_, _, _) =>
    case About(c) =>
      match c {
        case Creation(r) => UsesAfterCreation(m, r, ids, hashes, defaultDestination);
        case MarkDetected(id, txHash, clocks) =>
          UsesAfterTransition(m, id, Detected, Some(txHash), clocks, ids, hashes + {txHash});
        case Confirm(id, clocks) => UsesAfterTransition(m, id, Confirmed, None, clocks, ids, hashes);
        case Fail(id, clocks) => UsesAfterTransition(m, id, Failed, None, clocks, ids, hashes);
        case Expire(id, clocks) => UsesAfterTransition(m, id, Expired, None, clocks, ids, hashes);
        case Get(_) =>
      }
  }

  /** An orderly caller draws fresh ids and meets neither exception. */
  lemma {:induction false} OrderlyIsNeverRefused(
    m: PaymentRepository.Memory, calls: seq<Call>, ids: set<Uuid>, hashes: set<string>, defaultDestination: string)
    requires Uses(m, ids, hashes) && Orderly(calls, ids, hashes)
    ensures AllPossible(InMemory(m), calls, defaultDestination) && NoneRefused(InMemory(m), calls, defaultDestination)
    decreases |calls|
  {
    if calls != [] {
      UsesAfter(m, calls[0], ids, hashes, defaultDestination);
      OrderlyIsNeverRefused(StateAfter(InMemory(m), calls[0], defaultDestination).memory, calls[1..],
                            IdsAfter(ids, calls[0]), HashesAfter(hashes, calls[0]), defaultDestination);
    }
  }

  /** So its runs are answered alike from any related states. */
  lemma RunsAgree(
    m: PaymentRepository.Memory, t: PaymentTable.Table, calls: seq<Call>, ids: set<Uuid>, hashes: set<string>,
    defaultDestination: string)
    requires Related(m, t) && Uses(m, ids, hashes) && Orderly(calls, ids, hashes)
    ensures AlikeThroughout(m, t, calls, defaultDestination)
  {
    OrderlyIsNeverRefused(m, calls, ids, hashes, defaultDestination);
    RunsAgreeIff(m, t, calls, defaultDestination);
  }

  /** Two services started empty cannot be told apart by an orderly caller. */
  lemma FreshServicesAgree(calls: seq<Call>, defaultDestination: string)
    requires Orderly(calls, {}, {})
    ensures AlikeThroughout(PaymentRepository.Memory(map[], map[]), PaymentTable.EMPTY, calls, defaultDestination)
  {
    RunsAgree(PaymentRepository.Memory(map[], map[]), PaymentTable.EMPTY, calls, {}, {}, defaultDestination);
  }
}
