/** `Array.prototype.sort` with a numeric key: ascending and stable. */
module StableSort {

  predicate Sorted<T>(s: seq<T>, key: T -> int) {
    forall i, j :: 0 <= i < j < |s| ==> key(s[i]) <= key(s[j])
  }

  /** Puts `x` before the first element whose key is not smaller. */
  function Insert<T>(x: T, s: seq<T>, key: T -> int): (r: seq<T>)
    ensures |r| == |s| + 1
  {
    if s == [] || key(x) <= key(s[0]) then [x] + s
    else [s[0]] + Insert(x, s[1..], key)
  }

  function Sort<T>(s: seq<T>, key: T -> int): (r: seq<T>)
    ensures |r| == |s|
  {
    if s == [] then [] else Insert(s[0], Sort(s[1..], key), key)
  }

  /** The elements of one key, in order. */
  function Group<T>(s: seq<T>, key: T -> int, k: int): seq<T> {
    if s == [] then []
    else (if key(s[0]) == k then [s[0]] else []) + Group(s[1..], key, k)
  }

  lemma {:induction false} InsertPermutes<T>(x: T, s: seq<T>, key: T -> int)
    ensures multiset(Insert(x, s, key)) == multiset{x} + multiset(s)
  {
    if s == [] || key(x) <= key(s[0]) {
    } else {
      InsertPermutes(x, s[1..], key);
      assert s == [s[0]] + s[1..];
    }
  }

  lemma {:induction false} InsertKeepsOrder<T>(x: T, s: seq<T>, key: T -> int)
    requires Sorted(s, key)
    ensures Sorted(Insert(x, s, key), key)
  {
    if s == [] || key(x) <= key(s[0]) {
    } else {
      InsertKeepsOrder(x, s[1..], key);
      InsertPermutes(x, s[1..], key);
      var t := Insert(x, s[1..], key);
      forall i | 0 <= i < |t| ensures key(s[0]) <= key(t[i]) {
        assert t[i] in multiset(t);
        if t[i] != x {
          assert t[i] in multiset(s[1..]);
        }
      }
    }
  }

  /** Sorting permutes and orders. */
  lemma {:induction false} SortFacts<T>(s: seq<T>, key: T -> int)
    ensures multiset(Sort(s, key)) == multiset(s)
    ensures Sorted(Sort(s, key), key)
  {
    if s != [] {
      SortFacts(s[1..], key);
      InsertPermutes(s[0], Sort(s[1..], key), key);
      InsertKeepsOrder(s[0], Sort(s[1..], key), key);
      assert s == [s[0]] + s[1..];
    }
  }

  lemma SameElements<T>(s: seq<T>, key: T -> int, x: T)
    ensures x in Sort(s, key) <==> x in s
  {
    SortFacts(s, key);
    assert x in Sort(s, key) <==> x in multiset(Sort(s, key));
    assert x in s <==> x in multiset(s);
  }

  lemma InsertMember<T>(x: T, s: seq<T>, key: T -> int, t: T)
    ensures t in Insert(x, s, key) <==> t == x || t in s
  {
    InsertPermutes(x, s, key);
    assert t in Insert(x, s, key) <==> t in multiset(Insert(x, s, key));
  }

  /** No two elements share an identifier. */
  predicate Distinct<T, U(==)>(s: seq<T>, id: T -> U) {
    forall i, j :: 0 <= i < j < |s| ==> id(s[i]) != id(s[j])
  }

  lemma {:induction false} InsertKeepsDistinct<T, U>(x: T, s: seq<T>, key: T -> int, id: T -> U)
    requires Distinct(s, id)
    requires forall t :: t in s ==> id(t) != id(x)
    ensures Distinct(Insert(x, s, key), id)
  {
    if s == [] || key(x) <= key(s[0]) {
    } else {
      InsertKeepsDistinct(x, s[1..], key, id);
      var u := Insert(x, s[1..], key);
      forall i | 0 <= i < |u| ensures id(u[i]) != id(s[0]) {
        InsertMember(x, s[1..], key, u[i]);
        if u[i] != x {
          var k :| 0 <= k < |s[1..]| && s[1..][k] == u[i];
          assert id(s[0]) != id(s[k + 1]);
        }
      }
    }
  }

  lemma {:induction false} SortKeepsDistinct<T, U>(s: seq<T>, key: T -> int, id: T -> U)
    requires Distinct(s, id)
    ensures Distinct(Sort(s, key), id)
  {
    if s != [] {
      SortKeepsDistinct(s[1..], key, id);
      forall t | t in Sort(s[1..], key) ensures id(t) != id(s[0]) {
        SameElements(s[1..], key, t);
        var k :| 0 <= k < |s[1..]| && s[1..][k] == t;
        assert s[k + 1] == t && id(s[0]) != id(s[k + 1]);
      }
      InsertKeepsDistinct(s[0], Sort(s[1..], key), key, id);
    }
  }

  lemma GroupOfCons<T>(x: T, s: seq<T>, key: T -> int, k: int)
    ensures Group([x] + s, key, k) == (if key(x) == k then [x] else []) + Group(s, key, k)
  {
    assert ([x] + s)[1..] == s;
  }

  lemma {:induction false} InsertGroup<T>(x: T, s: seq<T>, key: T -> int, k: int)
    ensures Group(Insert(x, s, key), key, k) == (if key(x) == k then [x] else []) + Group(s, key, k)
  {
    if s == [] || key(x) <= key(s[0]) {
      GroupOfCons(x, s, key, k);
    } else {
      InsertGroup(x, s[1..], key, k);
      GroupOfCons(s[0], Insert(x, s[1..], key), key, k);
      if key(x) == k {
        assert key(s[0]) != k;
      }
    }
  }

  /** Stability: elements of equal key keep their order. */
  lemma {:induction false} SortIsStable<T>(s: seq<T>, key: T -> int, k: int)
    ensures Group(Sort(s, key), key, k) == Group(s, key, k)
  {
    if s != [] {
      SortIsStable(s[1..], key, k);
      InsertGroup(s[0], Sort(s[1..], key), key, k);
    }
  }

  /** A sequence already in order is left as it is. */
  lemma {:induction false} SortFixesSorted<T>(s: seq<T>, key: T -> int)
    requires Sorted(s, key)
    ensures Sort(s, key) == s
  {
    if s != [] {
      SortFixesSorted(s[1..], key);
      assert s == [s[0]] + s[1..];
    }
  }
}
