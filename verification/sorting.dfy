/** Python's `sorted(xs, key=...)`: a stable sort by a key under a total preorder.
    It is modelled as insertion of each element, in input order, after every
    element whose key is not greater than its own. */
module Sorting {

  ghost predicate TotalPreorder<K(!new)>(le: (K, K) -> bool) {
    (forall a, b :: le(a, b) || le(b, a)) &&
    (forall a, b, c :: le(a, b) && le(b, c) ==> le(a, c))
  }

  /** The order on priority ranks. */
  function NatLe(a: nat, b: nat): bool {
    a <= b
  }

  ghost predicate SortedBy<T, K(!new)>(s: seq<T>, key: T -> K, le: (K, K) -> bool) {
    forall i, j :: 0 <= i < j < |s| ==> le(key(s[i]), key(s[j]))
  }

  function Insert<T, K(!new)>(x: T, s: seq<T>, key: T -> K, le: (K, K) -> bool): (r: seq<T>)
    ensures |r| == |s| + 1
  {
    if s == [] then [x]
    else if le(key(s[0]), key(x)) then [s[0]] + Insert(x, s[1..], key, le)
    else [x] + s
  }

  /** Insertion adds `x` and loses nothing. */
  lemma {:induction false} InsertPermutes<T, K(!new)>(x: T, s: seq<T>, key: T -> K, le: (K, K) -> bool)
    ensures multiset(Insert(x, s, key, le)) == multiset(s) + multiset{x}
  {
    if s != [] && le(key(s[0]), key(x)) {
      InsertPermutes(x, s[1..], key, le);
      assert s == [s[0]] + s[1..];
    }
  }

  /** `sorted(s, key=key)`; the result is a permutation of the input. */
  function SortBy<T, K(!new)>(s: seq<T>, key: T -> K, le: (K, K) -> bool): (r: seq<T>)
    ensures multiset(r) == multiset(s)
  {
    if s == [] then []
    else
      assert s == s[..|s| - 1] + [s[|s| - 1]];
      InsertPermutes(s[|s| - 1], SortBy(s[..|s| - 1], key, le), key, le);
      Insert(s[|s| - 1], SortBy(s[..|s| - 1], key, le), key, le)
  }

  lemma {:induction false} InsertSorted<T, K(!new)>(x: T, s: seq<T>, key: T -> K, le: (K, K) -> bool)
    requires TotalPreorder(le) && SortedBy(s, key, le)
    ensures SortedBy(Insert(x, s, key, le), key, le)
  {
    if s != [] && le(key(s[0]), key(x)) {
      InsertSorted(x, s[1..], key, le);
      InsertPermutes(x, s[1..], key, le);
      var r := Insert(x, s, key, le);
      var t := Insert(x, s[1..], key, le);
      assert r == [s[0]] + t;
      forall j | 0 < j < |r| ensures le(key(s[0]), key(r[j])) {
        assert r[j] in multiset(t);
        assert r[j] in multiset(s[1..]) + multiset{x};
        if r[j] != x {
          var k :| 0 <= k < |s[1..]| && s[1..][k] == r[j];
          assert s[k + 1] == r[j];
        }
      }
    }
  }

  /** The sorted result is ordered by key. */
  lemma {:induction false} SortBySorted<T, K(!new)>(s: seq<T>, key: T -> K, le: (K, K) -> bool)
    requires TotalPreorder(le)
    ensures SortedBy(SortBy(s, key, le), key, le)
  {
    if s != [] {
      SortBySorted(s[..|s| - 1], key, le);
      InsertSorted(s[|s| - 1], SortBy(s[..|s| - 1], key, le), key, le);
    }
  }

  lemma {:induction false} InsertLast<T, K(!new)>(x: T, s: seq<T>, key: T -> K, le: (K, K) -> bool)
    requires forall i :: 0 <= i < |s| ==> le(key(s[i]), key(x))
    ensures Insert(x, s, key, le) == s + [x]
  {
    if s != [] {
      InsertLast(x, s[1..], key, le);
    }
  }

  lemma {:induction false} InsertFirst<T, K(!new)>(x: T, s: seq<T>, key: T -> K, le: (K, K) -> bool)
    requires s != [] ==> !le(key(s[0]), key(x))
    ensures Insert(x, s, key, le) == [x] + s
  {
  }

  /** Sorting an already sorted sequence leaves it as it is. */
  lemma {:induction false} SortBySortedIdentity<T, K(!new)>(s: seq<T>, key: T -> K, le: (K, K) -> bool)
    requires SortedBy(s, key, le)
    ensures SortBy(s, key, le) == s
  {
    if s != [] {
      var p := s[..|s| - 1];
      assert SortedBy(p, key, le);
      SortBySortedIdentity(p, key, le);
      InsertLast(s[|s| - 1], p, key, le);
    }
  }

  /** Appending an element whose key is strictly below all others moves it to the front. */
  lemma {:induction false} SortByMovesSmallestFirst<T, K(!new)>(s: seq<T>, x: T, key: T -> K, le: (K, K) -> bool)
    requires SortedBy(s, key, le)
    requires forall i :: 0 <= i < |s| ==> !le(key(s[i]), key(x))
    ensures SortBy(s + [x], key, le) == [x] + s
  {
    assert (s + [x])[..|s + [x]| - 1] == s;
    SortBySortedIdentity(s, key, le);
    InsertFirst(x, s, key, le);
  }

  // Stability: the elements with one key, taken in order, are the same before and after.

  ghost predicate SameKey<K(!new)>(le: (K, K) -> bool, a: K, b: K) {
    le(a, b) && le(b, a)
  }

  ghost function KeyClass<T, K(!new)>(s: seq<T>, key: T -> K, le: (K, K) -> bool, k: K): seq<T> {
    if s == [] then []
    else (if SameKey(le, key(s[0]), k) then [s[0]] else []) + KeyClass(s[1..], key, le, k)
  }

  lemma {:induction false} KeyClassAppend<T, K(!new)>(a: seq<T>, b: seq<T>, key: T -> K, le: (K, K) -> bool, k: K)
    ensures KeyClass(a + b, key, le, k) == KeyClass(a, key, le, k) + KeyClass(b, key, le, k)
  {
    if a == [] {
      assert a + b == b;
    } else {
      var h := if SameKey(le, key(a[0]), k) then [a[0]] else [];
      assert (a + b)[0] == a[0];
      assert (a + b)[1..] == a[1..] + b;
      KeyClassAppend(a[1..], b, key, le, k);
      assert KeyClass(a + b, key, le, k) == h + KeyClass(a[1..] + b, key, le, k);
      assert KeyClass(a, key, le, k) == h + KeyClass(a[1..], key, le, k);
    }
  }

  lemma {:induction false} KeyClassEmpty<T, K(!new)>(s: seq<T>, key: T -> K, le: (K, K) -> bool, k: K)
    requires forall i :: 0 <= i < |s| ==> !SameKey(le, key(s[i]), k)
    ensures KeyClass(s, key, le, k) == []
  {
    if s != [] {
      KeyClassEmpty(s[1..], key, le, k);
    }
  }

  /** In a sorted sequence whose first key is above `key(x)`, no element shares `x`'s key. */
  lemma {:induction false} NoneAboveShareKey<T, K(!new)>(x: T, s: seq<T>, key: T -> K, le: (K, K) -> bool, k: K)
    requires TotalPreorder(le) && SortedBy(s, key, le)
    requires s != [] && !le(key(s[0]), key(x)) && SameKey(le, key(x), k)
    ensures KeyClass(s, key, le, k) == []
  {
    forall i | 0 <= i < |s| ensures !SameKey(le, key(s[i]), k) {
      var a, b, c, d := key(s[0]), key(s[i]), k, key(x);
      assert i == 0 || le(a, b);
    }
    KeyClassEmpty(s, key, le, k);
  }

  lemma {:induction false} KeyClassInsert<T, K(!new)>(x: T, s: seq<T>, key: T -> K, le: (K, K) -> bool, k: K)
    requires TotalPreorder(le) && SortedBy(s, key, le)
    ensures KeyClass(Insert(x, s, key, le), key, le, k)
         == KeyClass(s, key, le, k) + (if SameKey(le, key(x), k) then [x] else [])
  {
    var tail := if SameKey(le, key(x), k) then [x] else [];
    if s == [] {
      assert KeyClass([x], key, le, k) == tail + KeyClass([], key, le, k);
    } else if le(key(s[0]), key(x)) {
      SortedTail(s, key, le);
      KeyClassInsert(x, s[1..], key, le, k);
      KeyClassInsertAfterHead(x, s, key, le, k);
    } else {
      KeyClassInsertFront(x, s, key, le, k);
    }
  }

  lemma {:induction false} SortedTail<T, K(!new)>(s: seq<T>, key: T -> K, le: (K, K) -> bool)
    requires s != [] && SortedBy(s, key, le)
    ensures SortedBy(s[1..], key, le)
  {
    forall i, j | 0 <= i < j < |s| - 1 ensures le(key(s[1..][i]), key(s[1..][j])) {
      assert s[1..][i] == s[i + 1] && s[1..][j] == s[j + 1];
    }
  }

  /** `x` goes past the head: the head's class entry comes first, as before. */
  lemma {:induction false} KeyClassInsertAfterHead<T, K(!new)>(x: T, s: seq<T>, key: T -> K, le: (K, K) -> bool, k: K)
    requires s != [] && le(key(s[0]), key(x))
    requires KeyClass(Insert(x, s[1..], key, le), key, le, k)
          == KeyClass(s[1..], key, le, k) + (if SameKey(le, key(x), k) then [x] else [])
    ensures KeyClass(Insert(x, s, key, le), key, le, k)
         == KeyClass(s, key, le, k) + (if SameKey(le, key(x), k) then [x] else [])
  {
    var h := if SameKey(le, key(s[0]), k) then [s[0]] else [];
    var r := Insert(x, s, key, le);
    assert r == [s[0]] + Insert(x, s[1..], key, le);
    assert r[0] == s[0] && r[1..] == Insert(x, s[1..], key, le);
    assert KeyClass(r, key, le, k) == h + KeyClass(r[1..], key, le, k);
    assert KeyClass(s, key, le, k) == h + KeyClass(s[1..], key, le, k);
  }

  /** `x` goes in front: nothing after it shares its key. */
  lemma {:induction false} KeyClassInsertFront<T, K(!new)>(x: T, s: seq<T>, key: T -> K, le: (K, K) -> bool, k: K)
    requires TotalPreorder(le) && SortedBy(s, key, le)
    requires s != [] && !le(key(s[0]), key(x))
    ensures KeyClass(Insert(x, s, key, le), key, le, k)
         == KeyClass(s, key, le, k) + (if SameKey(le, key(x), k) then [x] else [])
  {
    var tail := if SameKey(le, key(x), k) then [x] else [];
    var r := Insert(x, s, key, le);
    assert r == [x] + s;
    assert r[0] == x && r[1..] == s;
    assert KeyClass(r, key, le, k) == tail + KeyClass(s, key, le, k);
    if SameKey(le, key(x), k) {
      NoneAboveShareKey(x, s, key, le, k);
    }
  }

  lemma KeyClassLast<T, K(!new)>(s: seq<T>, key: T -> K, le: (K, K) -> bool, k: K)
    requires s != []
    ensures KeyClass(s, key, le, k) == KeyClass(s[..|s| - 1], key, le, k)
         + (if SameKey(le, key(s[|s| - 1]), k) then [s[|s| - 1]] else [])
  {
    var x := s[|s| - 1];
    assert s == s[..|s| - 1] + [x];
    KeyClassAppend(s[..|s| - 1], [x], key, le, k);
    assert KeyClass([x], key, le, k) == (if SameKey(le, key(x), k) then [x] else []) + KeyClass([], key, le, k);
  }

  lemma {:induction false} KeyClassSortStep<T, K(!new)>(x: T, p: seq<T>, key: T -> K, le: (K, K) -> bool, k: K)
    requires TotalPreorder(le)
    ensures KeyClass(Insert(x, SortBy(p, key, le), key, le), key, le, k)
         == KeyClass(SortBy(p, key, le), key, le, k) + (if SameKey(le, key(x), k) then [x] else [])
  {
    SortBySorted(p, key, le);
    KeyClassInsert(x, SortBy(p, key, le), key, le, k);
  }

  /** `sorted` is stable: for every key, the elements with that key keep their order. */
  lemma {:induction false} SortByStable<T, K(!new)>(s: seq<T>, key: T -> K, le: (K, K) -> bool, k: K)
    requires TotalPreorder(le)
    ensures KeyClass(SortBy(s, key, le), key, le, k) == KeyClass(s, key, le, k)
  {
    if s != [] {
      var p, x := s[..|s| - 1], s[|s| - 1];
      var tail := if SameKey(le, key(x), k) then [x] else [];
      assert SortBy(s, key, le) == Insert(x, SortBy(p, key, le), key, le);
      SortByStable(p, key, le, k);
      KeyClassSortStep(x, p, key, le, k);
      KeyClassLast(s, key, le, k);
    }
  }
}
