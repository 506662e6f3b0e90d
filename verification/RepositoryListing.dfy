/** The listings of the two payment repositories: the same, except for the order of payments created together. */
module RepositoryListing {
  import opened Wrappers
  import opened Collections
  import opened HashTable
  import opened Pagination
  import opened PaymentCore
  import opened PaymentService
  import opened RepositorySimulation
  import PaymentRepository
  import PaymentTable

  // === Sorted lists of the same elements

  function Keys<T(!new)>(s: seq<T>, key: T -> int): seq<int> {
    Map(s, key)
  }

  function HasKey<T(!new)>(key: T -> int, k: int): T -> bool {
    (x: T) => key(x) == k
  }

  lemma {:induction false} KeyMultiplicity<T(!new)>(s: seq<T>, key: T -> int, k: int)
    ensures multiset(Keys(s, key))[k] == |Filter(s, HasKey(key, k))|
  {
    if s != [] {
      KeyMultiplicity(s[1..], key, k);
      assert Keys(s, key) == [key(s[0])] + Keys(s[1..], key);
    }
  }

  /** Lists with the same elements keep as many of them through any filter. */
  lemma FilteredSizes<T(!new)>(a: seq<T>, b: seq<T>, p: T -> bool)
    requires multiset(a) == multiset(b)
    ensures |Filter(a, p)| == |Filter(b, p)|
  {
    forall x ensures multiset(Filter(a, p))[x] == multiset(Filter(b, p))[x] {
      FilterMultiplicity(a, p, x);
      FilterMultiplicity(b, p, x);
    }
    assert multiset(Filter(a, p)) == multiset(Filter(b, p));
    SameMembers(Filter(a, p), Filter(b, p));
  }

  ghost predicate Ascending(s: seq<int>) {
    forall i, j :: 0 <= i < j < |s| ==> s[i] <= s[j]
  }

  lemma TailMultiset(s: seq<int>)
    requires s != []
    ensures multiset(s[1..]) == multiset(s) - multiset{s[0]}
  {
    assert s == [s[0]] + s[1..];
  }

  lemma {:induction false} AscendingIsUnique(a: seq<int>, b: seq<int>)
    requires Ascending(a) && Ascending(b) && multiset(a) == multiset(b)
    ensures a == b
  {
    SameMembers(a, b);
    if a != [] {
      assert a[0] == b[0] by {
        assert a[0] in b && b[0] in a;
      }
      TailMultiset(a);
      TailMultiset(b);
      AscendingIsUnique(a[1..], b[1..]);
      assert a == [a[0]] + a[1..] && b == [b[0]] + b[1..];
    }
  }

  /** Two sorted lists of the same elements agree on the key at every position. */
  lemma SortedKeysAgree<T(!new)>(a: seq<T>, b: seq<T>, key: T -> int)
    requires multiset(a) == multiset(b) && SortedBy(a, key) && SortedBy(b, key)
    ensures |a| == |b| && forall i :: 0 <= i < |a| ==> key(a[i]) == key(b[i])
  {
    forall k ensures multiset(Keys(a, key))[k] == multiset(Keys(b, key))[k] {
      KeyMultiplicity(a, key, k);
      KeyMultiplicity(b, key, k);
      FilteredSizes(a, b, HasKey(key, k));
    }
    assert multiset(Keys(a, key)) == multiset(Keys(b, key));
    AscendingIsUnique(Keys(a, key), Keys(b, key));
    forall i | 0 <= i < |a| ensures key(a[i]) == key(b[i]) {
      assert Keys(a, key)[i] == Keys(b, key)[i];
    }
  }

  lemma SameElements<T(!new)>(a: seq<T>, b: seq<T>)
    requires NoDuplicates(a) && NoDuplicates(b) && forall x :: x in a <==> x in b
    ensures multiset(a) == multiset(b)
  {
    forall x ensures multiset(a)[x] == multiset(b)[x] {
      assert x in a <==> multiset(a)[x] > 0;
      assert x in b <==> multiset(b)[x] > 0;
    }
  }

  // === Totals

  lemma CountsAgree(m: PaymentRepository.Memory, t: PaymentTable.Table, status: Option<PaymentStatus>)
    requires Related(m, t)
    ensures PaymentRepository.CountOf(m, status) == PaymentTable.CountOf(t, status)
  {
    forall id | id in m.payments ensures t.rows[id].status == m.payments[id].status {
      StatusesAgree(m, t, id);
    }
    var here := Matching(m.payments, m.payments.Keys, PaymentRepository.HasStatus(status));
    var there := set id | id in t.rows && PaymentTable.HasStatus(t.rows[id].status, status);
    forall id ensures id in here <==> id in there {
    }
    assert here == there;
  }

  // === Pages

  /** No other payment with the wanted status was created at the same time. */
  ghost predicate Alone(m: PaymentRepository.Memory, status: Option<PaymentStatus>, p: Payment) {
    forall id :: (id in m.payments && PaymentRepository.HasStatus(status)(m.payments[id])
                  && m.payments[id].createdAt == p.createdAt) ==> m.payments[id] == p
  }

  /** Position by position created at the same time, and the same payment wherever it is alone in that. */
  ghost predicate SameUpToTies(
    m: PaymentRepository.Memory, status: Option<PaymentStatus>, a: seq<Payment>, b: seq<Payment>)
  {
    && |a| == |b|
    && forall i :: 0 <= i < |a| ==>
         a[i].createdAt == b[i].createdAt && (Alone(m, status, a[i]) ==> SamePayment(a[i], b[i]))
  }

  /** The payments in memory that the rows of a listing stand for. */
  function InMemoryOf(m: PaymentRepository.Memory, list: seq<Payment>): (r: seq<Payment>)
    requires forall p :: p in list ==> p.id in m.payments
    ensures |r| == |list|
    ensures forall i :: 0 <= i < |list| ==> r[i] == m.payments[list[i].id]
  {
    if list == [] then []
    else
      assert list[0] in list && forall p :: p in list[1..] ==> p in list;
      [m.payments[list[0].id]] + InMemoryOf(m, list[1..])
  }

  lemma RowOf(m: PaymentRepository.Memory, t: PaymentTable.Table, id: Uuid)
    requires Related(m, t) && id in m.payments
    ensures id in t.rows && SamePayment(m.payments[id], PaymentTable.FromRow(t.rows[id]))
    ensures m.payments[id].id == id
  {
    assert Represents(t.rows[id], m.payments[id]);
    RepresentedIsSame(t.rows[id], m.payments[id]);
  }

  lemma MemoryListIsSorted(m: PaymentRepository.Memory, list: seq<Payment>)
    requires forall p :: p in list ==> p.id in m.payments && SamePayment(m.payments[p.id], p)
    requires SortedBy(list, (p: Payment) => -p.createdAt)
    ensures SortedBy(InMemoryOf(m, list), PaymentRepository.NewestFirst())
  {
    var there := InMemoryOf(m, list);
    forall i | 0 <= i < |there| ensures there[i].createdAt == list[i].createdAt {
      assert list[i] in list;
    }
    var key := (p: Payment) => -p.createdAt;
    forall i, j | 0 <= i < j < |there|
      ensures PaymentRepository.NewestFirst()(there[i]) <= PaymentRepository.NewestFirst()(there[j])
    {
      assert key(list[i]) <= key(list[j]);
    }
  }

  /** Distinct rows stand for distinct payments. */
  lemma {:induction false} DistinctIds(list: seq<Payment>, there: seq<Payment>)
    requires NoDuplicates(list) && |there| == |list|
    requires forall i, j :: 0 <= i < j < |list| && list[i] != list[j] ==> there[i] != there[j]
    ensures NoDuplicates(there)
  {
    forall x ensures multiset(there)[x] <= 1 {
      if multiset(there)[x] > 1 {
        var i, j := TwoPlaces(there, x);
        DistinctIndices(list, i, j);
      }
    }
  }

  lemma ListedIsStored(
    m: PaymentRepository.Memory, t: PaymentTable.Table, status: Option<PaymentStatus>, list: seq<Payment>, v: Payment)
    requires Related(m, t) && PaymentTable.IsNewestList(t, status, list)
    requires forall p :: p in list ==> p.id in m.payments && SamePayment(m.payments[p.id], p)
    requires v in InMemoryOf(m, list)
    ensures v.id in m.payments && m.payments[v.id] == v && PaymentRepository.HasStatus(status)(v)
  {
    var there := InMemoryOf(m, list);
    var i :| 0 <= i < |there| && there[i] == v;
    assert list[i] in list;
    RowOf(m, t, list[i].id);
  }

  lemma StoredIsListed(
    m: PaymentRepository.Memory, t: PaymentTable.Table, status: Option<PaymentStatus>, list: seq<Payment>, v: Payment)
    requires Related(m, t) && PaymentTable.IsNewestList(t, status, list)
    requires forall p :: p in list ==> p.id in m.payments && SamePayment(m.payments[p.id], p)
    requires v.id in m.payments && m.payments[v.id] == v && PaymentRepository.HasStatus(status)(v)
    ensures v in InMemoryOf(m, list)
  {
    RowOf(m, t, v.id);
    var p := PaymentTable.FromRow(t.rows[v.id]);
    assert p.id == v.id && p.status == v.status;
    assert p in list;
    var i :| 0 <= i < |list| && list[i] == p;
    assert InMemoryOf(m, list)[i] == v;
  }

  lemma DifferentRowsDifferentPayments(
    m: PaymentRepository.Memory, t: PaymentTable.Table, status: Option<PaymentStatus>, list: seq<Payment>)
    requires PaymentTable.IsNewestList(t, status, list)
    requires forall p :: p in list ==> p.id in m.payments && SamePayment(m.payments[p.id], p)
    ensures forall i, j :: 0 <= i < j < |list| && list[i] != list[j] ==>
      InMemoryOf(m, list)[i] != InMemoryOf(m, list)[j]
  {
    forall i, j | 0 <= i < j < |list| && list[i] != list[j] ensures list[i].id != list[j].id {
      assert list[i] in list && list[j] in list;
    }
    forall i | 0 <= i < |list| ensures InMemoryOf(m, list)[i].id == list[i].id {
      assert list[i] in list;
    }
  }

  lemma MemoryListIsComplete(
    m: PaymentRepository.Memory, t: PaymentTable.Table, status: Option<PaymentStatus>, list: seq<Payment>)
    requires Related(m, t) && PaymentTable.IsNewestList(t, status, list)
    requires forall p :: p in list ==> p.id in m.payments && SamePayment(m.payments[p.id], p)
    ensures ListsOnce(InMemoryOf(m, list), m.payments, PaymentRepository.IdOf(), PaymentRepository.HasStatus(status))
  {
    var there := InMemoryOf(m, list);
    forall v
      ensures v in there <==> v.id in m.payments && m.payments[v.id] == v && PaymentRepository.HasStatus(status)(v)
    {
      if v in there {
        ListedIsStored(m, t, status, list, v);
      } else if v.id in m.payments && m.payments[v.id] == v && PaymentRepository.HasStatus(status)(v) {
        StoredIsListed(m, t, status, list, v);
      }
    }
    DifferentRowsDifferentPayments(m, t, status, list);
    DistinctIds(list, there);
  }

  lemma TableListInMemory(
    m: PaymentRepository.Memory, t: PaymentTable.Table, status: Option<PaymentStatus>, list: seq<Payment>)
    requires Related(m, t) && PaymentTable.IsNewestList(t, status, list)
    ensures forall p :: p in list ==> p.id in m.payments && SamePayment(m.payments[p.id], p)
    ensures ListsOnce(InMemoryOf(m, list), m.payments, PaymentRepository.IdOf(), PaymentRepository.HasStatus(status))
    ensures SortedBy(InMemoryOf(m, list), PaymentRepository.NewestFirst())
  {
    forall p | p in list ensures p.id in m.payments && SamePayment(m.payments[p.id], p) {
      RowOf(m, t, p.id);
    }
    MemoryListIsSorted(m, list);
    MemoryListIsComplete(m, t, status, list);
  }

  ghost predicate IsListOf(m: PaymentRepository.Memory, status: Option<PaymentStatus>, list: seq<Payment>) {
    && ListsOnce(list, m.payments, PaymentRepository.IdOf(), PaymentRepository.HasStatus(status))
    && SortedBy(list, PaymentRepository.NewestFirst())
  }

  lemma NewestIsListed(m: PaymentRepository.Memory, order: seq<Uuid>, status: Option<PaymentStatus>)
    requires PaymentRepository.Coherent(m) && Enumerates(order, m.payments.Keys)
    ensures IsListOf(m, status, PaymentRepository.Newest(m, order, status))
  {
    SelectedListsOnce(m.payments, order, PaymentRepository.IdOf(), PaymentRepository.HasStatus(status),
                      PaymentRepository.NewestFirst());
  }

  /** Two newest-first lists of one repository differ at most among payments created together. */
  lemma ListsOfOneAgree(
    m: PaymentRepository.Memory, status: Option<PaymentStatus>, a: seq<Payment>, b: seq<Payment>, i: nat)
    requires IsListOf(m, status, a) && IsListOf(m, status, b) && i < |a|
    ensures |a| == |b| && a[i].createdAt == b[i].createdAt && (Alone(m, status, a[i]) ==> a[i] == b[i])
  {
    var rank := PaymentRepository.NewestFirst();
    SameElements(a, b);
    SortedKeysAgree(a, b, rank);
    assert rank(a[i]) == rank(b[i]);
    assert b[i] in b;
    assert PaymentRepository.IdOf()(b[i]) == b[i].id;
  }

  /** Any newest-first list of the one and any of the other: the same up to ties. */
  lemma ListsAgree(
    m: PaymentRepository.Memory, t: PaymentTable.Table, status: Option<PaymentStatus>, newest: seq<Payment>,
    list: seq<Payment>)
    requires Related(m, t) && IsListOf(m, status, newest) && PaymentTable.IsNewestList(t, status, list)
    ensures SameUpToTies(m, status, newest, list)
  {
    TableListInMemory(m, t, status, list);
    var there := InMemoryOf(m, list);
    SameElements(newest, there);
    SameMembers(newest, there);
    forall i | 0 <= i < |newest|
      ensures newest[i].createdAt == list[i].createdAt
      ensures Alone(m, status, newest[i]) ==> SamePayment(newest[i], list[i])
    {
      assert list[i] in list;
      ListsOfOneAgree(m, status, newest, there, i);
    }
  }

  /** The same window of lists that are the same up to ties. */
  lemma WindowsAgree(
    m: PaymentRepository.Memory, status: Option<PaymentStatus>, a: seq<Payment>, b: seq<Payment>,
    page: u32, perPage: u32)
    requires SameUpToTies(m, status, a, b)
    ensures SameUpToTies(m, status, PageOf(a, page, perPage), PageOf(b, page, perPage))
  {
    var x, y := PageOf(a, page, perPage), PageOf(b, page, perPage);
    forall i | 0 <= i < |x|
      ensures x[i].createdAt == y[i].createdAt && (Alone(m, status, x[i]) ==> SamePayment(x[i], y[i]))
    {
      PageAt(a, page, perPage, i);
      PageAt(b, page, perPage, i);
    }
  }

  /** Whatever order either repository takes: equal totals, and pages that are the same up to ties. */
  lemma ListingsAgree(
    m: PaymentRepository.Memory, t: PaymentTable.Table, status: Option<PaymentStatus>, page: u32, perPage: u32,
    a: Listed, b: Listed)
    requires Related(m, t)
    requires MayList(InMemory(m), status, page, perPage, a) && MayList(Postgres(t), status, page, perPage, b)
    ensures a.total == b.total && SameUpToTies(m, status, a.payments, b.payments)
  {
    var order :| Enumerates(order, m.payments.Keys)
      && a.payments == PageOf(PaymentRepository.Newest(m, order, status), page, perPage);
    var list :| PaymentTable.IsNewestList(t, status, list) && b.payments == PageOf(list, page, perPage);
    CountsAgree(m, t, status);
    NewestIsListed(m, order, status);
    ListsAgree(m, t, status, PaymentRepository.Newest(m, order, status), list);
    WindowsAgree(m, status, PaymentRepository.Newest(m, order, status), list, page, perPage);
  }

  ghost predicate NoTies(m: PaymentRepository.Memory) {
    forall x, y :: x in m.payments && y in m.payments && x != y ==> m.payments[x].createdAt != m.payments[y].createdAt
  }

  lemma AllAlone(m: PaymentRepository.Memory, status: Option<PaymentStatus>, newest: seq<Payment>, i: nat)
    requires NoTies(m) && IsListOf(m, status, newest) && i < |newest|
    ensures Alone(m, status, newest[i])
  {
    assert newest[i] in newest;
    assert PaymentRepository.IdOf()(newest[i]) == newest[i].id;
  }

  lemma PageIsAlone(
    m: PaymentRepository.Memory, status: Option<PaymentStatus>, newest: seq<Payment>, page: u32, perPage: u32)
    requires NoTies(m) && IsListOf(m, status, newest)
    ensures forall i :: 0 <= i < |PageOf(newest, page, perPage)| ==> Alone(m, status, PageOf(newest, page, perPage)[i])
  {
    forall i | 0 <= i < |PageOf(newest, page, perPage)| ensures Alone(m, status, PageOf(newest, page, perPage)[i]) {
      PageAt(newest, page, perPage, i);
      AllAlone(m, status, newest, Offset(page, perPage) + i);
    }
  }

  /** When no two payments were created together, the pages hold the same payments. */
  lemma ListingsAgreeWithoutTies(
    m: PaymentRepository.Memory, t: PaymentTable.Table, status: Option<PaymentStatus>, page: u32, perPage: u32,
    a: Listed, b: Listed)
    requires Related(m, t) && NoTies(m)
    requires MayList(InMemory(m), status, page, perPage, a) && MayList(Postgres(t), status, page, perPage, b)
    ensures |a.payments| == |b.payments|
    ensures forall i :: 0 <= i < |a.payments| ==> SamePayment(a.payments[i], b.payments[i])
  {
    ListingsAgree(m, t, status, page, perPage, a, b);
    var order :| Enumerates(order, m.payments.Keys)
      && a.payments == PageOf(PaymentRepository.Newest(m, order, status), page, perPage);
    NewestIsListed(m, order, status);
    PageIsAlone(m, status, PaymentRepository.Newest(m, order, status), page, perPage);
  }

  // === There always is an answer

  lemma {:induction false} SomeOrder(keys: set<Uuid>) returns (order: seq<Uuid>)
    ensures Enumerates(order, keys)
  {
    if keys == {} {
      order := [];
    } else {
      var k :| k in keys;
      var rest := SomeOrder(keys - {k});
      order := rest + [k];
      assert multiset(order) == multiset(rest) + multiset{k};
    }
  }

  /** Both repositories can answer any listing. */
  lemma ListingsExist(s: Backend, status: Option<PaymentStatus>, page: u32, perPage: u32) returns (answer: Listed)
    requires s.Postgres? ==> PaymentTable.RowsKeyed(s.table)
    ensures MayList(s, status, page, perPage, answer)
  {
    match s
    case InMemory(m) =>
      var order := SomeOrder(m.payments.Keys);
      answer := Listed(PageOf(PaymentRepository.Newest(m, order, status), page, perPage),
                       PaymentRepository.CountOf(m, status));
    case Postgres(t) =>
      var payments := PaymentTable.Payments(t);
      var order := SomeOrder(payments.Keys);
      var selected := Selected(payments, order, PaymentRepository.HasStatus(status));
      var list := SortBy(selected, PaymentRepository.NewestFirst());
      SelectedListsOnce(payments, order, PaymentRepository.IdOf(), PaymentRepository.HasStatus(status),
                        PaymentRepository.NewestFirst());
      assert PaymentTable.IsNewestList(t, status, list);
      answer := Listed(PageOf(list, page, perPage), PaymentTable.CountOf(t, status));
  }
}
