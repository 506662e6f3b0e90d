/**
 * A hash table as its users see it: a map together with the arbitrary order
 * its values happen to be iterated in. Scans walk that order; the table may
 * take on any other order whenever something is inserted.
 */
module HashTable {
  import opened Collections

  function Values<K(!new), V(!new)>(m: map<K, V>, order: seq<K>): (r: seq<V>)
    requires forall k :: k in order ==> k in m
    ensures |r| == |order|
  {
    if order == [] then [] else [m[order[0]]] + Values(m, order[1..])
  }

  lemma {:induction false} ValuesConcat<K(!new), V(!new)>(m: map<K, V>, a: seq<K>, b: seq<K>)
    requires forall k :: k in a + b ==> k in m
    ensures forall k :: k in a ==> k in m
    ensures forall k :: k in b ==> k in m
    ensures Values(m, a + b) == Values(m, a) + Values(m, b)
  {
    assert forall k :: k in a ==> k in a + b;
    assert forall k :: k in b ==> k in a + b;
    if a == [] {
      assert a + b == b;
    } else {
      assert (a + b)[1..] == a[1..] + b;
      ValuesConcat(m, a[1..], b);
    }
  }

  /** Every value says which key it is stored under. */
  ghost predicate KeyedBy<K(!new), V(!new)>(m: map<K, V>, key: V -> K) {
    forall k :: k in m ==> key(m[k]) == k
  }

  lemma {:induction false} ValuesMultiplicity<K(!new), V(!new)>(m: map<K, V>, order: seq<K>, key: V -> K, v: V)
    requires (forall k :: k in order ==> k in m) && KeyedBy(m, key)
    ensures multiset(Values(m, order))[v] == if key(v) in m && m[key(v)] == v then multiset(order)[key(v)] else 0
  {
    if order != [] {
      var first: V, rest: seq<K> := m[order[0]], order[1..];
      ValuesMultiplicity(m, rest, key, v);
      assert order == [order[0]] + rest;
      assert multiset(order)[key(v)] == (if order[0] == key(v) then 1 else 0) + multiset(rest)[key(v)];
      assert multiset([first] + Values(m, rest))[v] == (if first == v then 1 else 0) + multiset(Values(m, rest))[v];
    }
  }

  // === Selecting

  /** The selected values, in iteration order. */
  function Selected<K(!new), V(!new)>(m: map<K, V>, order: seq<K>, selected: V -> bool): seq<V>
    requires forall k :: k in order ==> k in m
  {
    Filter(Values(m, order), selected)
  }

  /** What any listing contains: each selected value of the table, once. */
  ghost predicate ListsOnce<K(!new), V(!new)>(r: seq<V>, m: map<K, V>, key: V -> K, selected: V -> bool) {
    && NoDuplicates(r)
    && (forall v :: v in r <==> key(v) in m && m[key(v)] == v && selected(v))
  }

  lemma SelectedListsOnce<K(!new), V(!new)>(
    m: map<K, V>, order: seq<K>, key: V -> K, selected: V -> bool, rank: V -> int)
    requires KeyedBy(m, key) && Enumerates(order, m.Keys)
    ensures ListsOnce(Selected(m, order, selected), m, key, selected)
    ensures ListsOnce(SortBy(Selected(m, order, selected), rank), m, key, selected)
    ensures SortedBy(SortBy(Selected(m, order, selected), rank), rank)
  {
    var values := Values(m, order);
    forall v: V
      ensures multiset(values)[v] == if key(v) in m && m[key(v)] == v then 1 else 0
    {
      ValuesMultiplicity(m, order, key, v);
    }
    forall v: V ensures v in values <==> key(v) in m && m[key(v)] == v {
      assert v in values <==> multiset(values)[v] > 0;
    }
    FilterKeepsNoDuplicates(values, selected);
    SameMembers(SortBy(Selected(m, order, selected), rank), Selected(m, order, selected));
    SortIsSorted(Selected(m, order, selected), rank);
  }

  /** How many values are selected among some keys. */
  function Matching<K(!new), V(!new)>(m: map<K, V>, keys: set<K>, selected: V -> bool): set<K>
    requires keys <= m.Keys
  {
    set k | k in keys && selected(m[k])
  }

  lemma {:induction false} SelectedSize<K(!new), V(!new)>(
    m: map<K, V>, order: seq<K>, keys: set<K>, selected: V -> bool)
    requires Enumerates(order, keys) && keys <= m.Keys
    ensures |Selected(m, order, selected)| == |Matching(m, keys, selected)|
  {
    if order == [] {
      assert keys == {};
    } else {
      var first: K, rest: seq<K> := order[0], order[1..];
      EnumerationTail(order, keys);
      SelectedSize(m, rest, keys - {first}, selected);
      var others := Matching(m, keys - {first}, selected);
      assert Matching(m, keys, selected) == if selected(m[first]) then others + {first} else others;
    }
  }

  // === Scanning

  method Collect<K(!new, ==), V(!new)>(m: map<K, V>, order: seq<K>, selected: V -> bool) returns (r: seq<V>)
    requires forall k :: k in order ==> k in m
    ensures r == Selected(m, order, selected)
  {
    r := [];
    var i := 0;
    assert order[..0] == [];
    while i < |order|
      invariant 0 <= i <= |order|
      invariant r == Selected(m, order[..i], selected)
    {
      var value := m[order[i]];
      assert order[..i + 1] == order[..i] + [order[i]];
      ValuesConcat(m, order[..i], [order[i]]);
      FilterConcat(Values(m, order[..i]), [value], selected);
      FilterOne(value, selected);
      assert Values(m, [order[i]]) == [value];
      if selected(value) {
        r := r + [value];
      }
      i := i + 1;
    }
    assert order[..i] == order;
  }

  /** Any iteration order the table may take on. */
  method AnyOrder<K(!new, ==)>(keys: set<K>) returns (order: seq<K>)
    ensures Enumerates(order, keys)
  {
    var rest := keys;
    order := [];
    while rest != {}
      invariant rest <= keys
      invariant Enumerates(order, keys - rest)
    {
      var k :| k in rest;
      assert multiset(order + [k]) == multiset(order) + multiset{k};
      order, rest := order + [k], rest - {k};
    }
  }
}
