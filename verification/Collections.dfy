/**
 * Lists and finite sums: filtering, counting, the stable sort by key that the
 * repositories call, and sums over finite sets.
 */
module Collections {

  // === Lists without repetition

  ghost predicate NoDuplicates<T(!new)>(s: seq<T>) {
    forall x :: multiset(s)[x] <= 1
  }

  /** `s` lists exactly the elements of `elements`, each once, in some order. */
  ghost predicate Enumerates<T(!new)>(s: seq<T>, elements: set<T>) {
    NoDuplicates(s) && (forall x :: x in s <==> x in elements)
  }

  lemma RepeatedElement<T(!new)>(s: seq<T>, i: nat, j: nat)
    requires i < j < |s| && s[i] == s[j]
    ensures multiset(s)[s[i]] >= 2
  {
    assert s == s[..j] + s[j..];
    assert s[i] in s[..j] && s[j] in s[j..];
  }

  lemma DistinctIndices<T(!new)>(s: seq<T>, i: nat, j: nat)
    requires NoDuplicates(s) && i < j < |s|
    ensures s[i] != s[j]
  {
    if s[i] == s[j] {
      RepeatedElement(s, i, j);
    }
  }

  lemma {:induction false} TwoPlaces<T(!new)>(s: seq<T>, x: T) returns (i: nat, j: nat)
    requires multiset(s)[x] > 1
    ensures i < j < |s| && s[i] == s[j] == x
  {
    var rest := s[1..];
    assert s == [s[0]] + rest;
    assert multiset(s)[x] == (if s[0] == x then 1 else 0) + multiset(rest)[x];
    if s[0] == x {
      assert x in rest;
      var k :| 0 <= k < |rest| && rest[k] == x;
      i, j := 0, 1 + k;
    } else {
      i, j := TwoPlaces(rest, x);
      i, j := i + 1, j + 1;
    }
  }

  lemma DistinctIffNoDuplicates<T(!new)>(s: seq<T>)
    ensures NoDuplicates(s) <==> forall i, j :: 0 <= i < j < |s| ==> s[i] != s[j]
  {
    if NoDuplicates(s) {
      forall i, j | 0 <= i < j < |s| ensures s[i] != s[j] {
        DistinctIndices(s, i, j);
      }
    } else {
      var x :| multiset(s)[x] > 1;
      var i, j := TwoPlaces(s, x);
    }
  }

  lemma EnumerationTail<T(!new)>(s: seq<T>, elements: set<T>)
    requires Enumerates(s, elements) && s != []
    ensures Enumerates(s[1..], elements - {s[0]})
  {
    var rest := s[1..];
    assert s == [s[0]] + rest;
    assert multiset(s) == multiset{s[0]} + multiset(rest);
    forall x
      ensures multiset(rest)[x] <= 1
      ensures x in rest <==> x in elements - {s[0]}
    {
      assert multiset(s)[x] == multiset{s[0]}[x] + multiset(rest)[x];
      assert x in s <==> x == s[0] || x in rest;
      assert x in rest <==> multiset(rest)[x] > 0;
    }
  }

  // === Filtering, mapping, counting

  function Filter<T(!new)>(s: seq<T>, p: T -> bool): (r: seq<T>)
    ensures forall x :: x in r <==> x in s && p(x)
    ensures |r| <= |s|
  {
    if s == [] then []
    else if p(s[0]) then [s[0]] + Filter(s[1..], p)
    else Filter(s[1..], p)
  }

  lemma {:induction false} FilterConcat<T(!new)>(a: seq<T>, b: seq<T>, p: T -> bool)
    ensures Filter(a + b, p) == Filter(a, p) + Filter(b, p)
  {
    if a == [] {
      assert a + b == b;
    } else {
      FilterConcat(a[1..], b, p);
      assert (a + b)[1..] == a[1..] + b;
    }
  }

  lemma FilterOne<T(!new)>(x: T, p: T -> bool)
    ensures Filter([x], p) == if p(x) then [x] else []
  {
    assert [x][1..] == [];
  }

  lemma {:induction false} FilterMultiplicity<T(!new)>(s: seq<T>, p: T -> bool, x: T)
    ensures multiset(Filter(s, p))[x] == if p(x) then multiset(s)[x] else 0
  {
    if s != [] {
      FilterMultiplicity(s[1..], p, x);
      assert s == [s[0]] + s[1..];
      assert multiset(s) == multiset{s[0]} + multiset(s[1..]);
    }
  }

  lemma FilterKeepsNoDuplicates<T(!new)>(s: seq<T>, p: T -> bool)
    requires NoDuplicates(s)
    ensures NoDuplicates(Filter(s, p))
  {
    forall x ensures multiset(Filter(s, p))[x] <= 1 {
      FilterMultiplicity(s, p, x);
    }
  }

  function Map<A(!new), B(!new)>(s: seq<A>, f: A -> B): (r: seq<B>)
    ensures |r| == |s|
    ensures forall i :: 0 <= i < |s| ==> r[i] == f(s[i])
  {
    if s == [] then [] else [f(s[0])] + Map(s[1..], f)
  }

  function Count<T(!new)>(s: seq<T>, p: T -> bool): nat {
    |Filter(s, p)|
  }

  lemma CountConcat<T(!new)>(a: seq<T>, b: seq<T>, p: T -> bool)
    ensures Count(a + b, p) == Count(a, p) + Count(b, p)
  {
    FilterConcat(a, b, p);
  }

  // === The stable sort

  ghost predicate SortedBy<T(!new)>(s: seq<T>, key: T -> int) {
    forall i, j :: 0 <= i < j < |s| ==> key(s[i]) <= key(s[j])
  }

  /** Places `x` before the elements with the same key: `x` came first. */
  function InsertBy<T(!new)>(x: T, s: seq<T>, key: T -> int): (r: seq<T>)
    ensures multiset(r) == multiset{x} + multiset(s)
  {
    if s == [] || key(x) <= key(s[0]) then
      [x] + s
    else
      assert s == [s[0]] + s[1..];
      [s[0]] + InsertBy(x, s[1..], key)
  }

  function SortBy<T(!new)>(s: seq<T>, key: T -> int): (r: seq<T>)
    ensures multiset(r) == multiset(s)
  {
    if s == [] then []
    else
      assert s == [s[0]] + s[1..];
      InsertBy(s[0], SortBy(s[1..], key), key)
  }

  lemma SameMembers<T(!new)>(a: seq<T>, b: seq<T>)
    requires multiset(a) == multiset(b)
    ensures |a| == |b|
    ensures forall x :: x in a <==> x in b
  {
    assert |a| == |multiset(a)| && |b| == |multiset(b)|;
    forall x ensures x in a <==> x in b {
      assert x in a <==> x in multiset(a);
    }
  }

  lemma {:induction false} InsertIsSorted<T(!new)>(x: T, s: seq<T>, key: T -> int)
    requires SortedBy(s, key)
    ensures SortedBy(InsertBy(x, s, key), key)
  {
    if s != [] && key(x) > key(s[0]) {
      var tail := InsertBy(x, s[1..], key);
      InsertIsSorted(x, s[1..], key);
      SameMembers(tail, [x] + s[1..]);
      forall i | 0 <= i < |tail| ensures key(s[0]) <= key(tail[i]) {
        assert tail[i] in tail;
      }
    }
  }

  lemma {:induction false} SortIsSorted<T(!new)>(s: seq<T>, key: T -> int)
    ensures SortedBy(SortBy(s, key), key)
  {
    if s != [] {
      SortIsSorted(s[1..], key);
      InsertIsSorted(s[0], SortBy(s[1..], key), key);
    }
  }

  /** The first elements of a sorted list are its least. */
  lemma SortedPrefix<T(!new)>(s: seq<T>, key: T -> int, n: nat)
    requires NoDuplicates(s) && SortedBy(s, key) && n <= |s|
    ensures NoDuplicates(s[..n]) && SortedBy(s[..n], key)
    ensures forall x, y :: x in s[..n] && y in s && y !in s[..n] ==> key(x) <= key(y)
  {
    assert s == s[..n] + s[n..];
    forall x ensures multiset(s[..n])[x] <= 1 {
      assert multiset(s)[x] == multiset(s[..n])[x] + multiset(s[n..])[x];
    }
    forall x, y | x in s[..n] && y in s && y !in s[..n] ensures key(x) <= key(y) {
      assert y in s[n..];
      var i :| 0 <= i < n && s[i] == x;
      var j :| n <= j < |s| && s[j] == y;
    }
  }

  // === Sums over finite sets

  ghost function SumOver<T(!new)>(s: set<T>, f: T -> int): int {
    if s == {} then 0 else
      var x :| x in s;
      f(x) + SumOver(s - {x}, f)
  }

  lemma {:induction false} SumTakeOut<T(!new)>(s: set<T>, f: T -> int, x: T)
    requires x in s
    ensures SumOver(s, f) == f(x) + SumOver(s - {x}, f)
  {
    var y :| y in s && SumOver(s, f) == f(y) + SumOver(s - {y}, f);
    if y != x {
      SumTakeOut(s - {y}, f, x);
      SumTakeOut(s - {x}, f, y);
      assert s - {x} - {y} == s - {y} - {x};
    }
  }

  lemma {:induction false} SumSame<T(!new)>(s: set<T>, f: T -> int, g: T -> int)
    requires forall x :: x in s ==> f(x) == g(x)
    ensures SumOver(s, f) == SumOver(s, g)
  {
    if s != {} {
      var x :| x in s;
      SumTakeOut(s, f, x);
      SumTakeOut(s, g, x);
      SumSame(s - {x}, f, g);
    }
  }

  lemma SumChangesAtOne<T(!new)>(s: set<T>, f: T -> int, g: T -> int, x: T)
    requires x in s && forall y :: y in s && y != x ==> f(y) == g(y)
    ensures SumOver(s, g) - SumOver(s, f) == g(x) - f(x)
  {
    SumTakeOut(s, f, x);
    SumTakeOut(s, g, x);
    SumSame(s - {x}, f, g);
  }

  lemma {:induction false} SumNonNegative<T(!new)>(s: set<T>, f: T -> int)
    requires forall x :: x in s ==> f(x) >= 0
    ensures SumOver(s, f) >= 0
  {
    if s != {} {
      var x :| x in s;
      SumTakeOut(s, f, x);
      SumNonNegative(s - {x}, f);
    }
  }

  /** An injection that keeps values bounds one sum by the other. */
  lemma {:induction false} SumThroughInjection<A(!new), B(!new)>(
    s: set<A>, t: set<B>, f: A -> int, g: B -> int, into: map<A, B>)
    requires forall a :: a in s ==> a in into && into[a] in t && f(a) == g(into[a])
    requires forall a, b :: a in s && b in s && a != b ==> into[a] != into[b]
    requires forall b :: b in t ==> g(b) >= 0
    ensures SumOver(s, f) <= SumOver(t, g)
  {
    if s == {} {
      SumNonNegative(t, g);
    } else {
      var a :| a in s;
      SumTakeOut(s, f, a);
      SumTakeOut(t, g, into[a]);
      SumThroughInjection(s - {a}, t - {into[a]}, f, g, into);
    }
  }

  lemma {:induction false} SumSplits<T(!new)>(s: set<T>, part: set<T>, f: T -> int)
    requires part <= s
    ensures SumOver(s, f) == SumOver(part, f) + SumOver(s - part, f)
  {
    if part == {} {
      assert s - part == s;
    } else {
      var x :| x in part;
      SumTakeOut(s, f, x);
      SumTakeOut(part, f, x);
      SumSplits(s - {x}, part - {x}, f);
      assert s - {x} - (part - {x}) == s - part;
    }
  }

  lemma SumPositive<T(!new)>(s: set<T>, f: T -> int)
    requires s != {} && forall x :: x in s ==> f(x) > 0
    ensures SumOver(s, f) > 0
  {
    var x :| x in s;
    SumTakeOut(s, f, x);
    SumNonNegative(s - {x}, f);
  }

  /** A set and its image under an injection that keeps values have the same sum. */
  lemma {:induction false} SumOfImage<A(!new), B(!new)>(
    s: set<A>, image: set<B>, f: A -> int, g: B -> int, into: map<A, B>)
    requires forall a :: a in s ==> a in into && into[a] in image && f(a) == g(into[a])
    requires forall b :: b in image ==> exists a :: a in s && a in into && into[a] == b
    requires forall a, b :: a in s && b in s && a != b ==> into[a] != into[b]
    ensures SumOver(s, f) == SumOver(image, g)
  {
    if s == {} {
      assert image == {};
    } else {
      var a :| a in s;
      SumTakeOut(s, f, a);
      SumTakeOut(image, g, into[a]);
      forall b | b in image - {into[a]} ensures exists c :: c in s - {a} && c in into && into[c] == b {
        var c :| c in s && c in into && into[c] == b;
        assert c in s - {a};
      }
      SumOfImage(s - {a}, image - {into[a]}, f, g, into);
    }
  }
}
