/**
 * Order-based selection shared by every copy of the analyzer: a stable sort
 * by a real-valued key (Python's `sorted`/`list.sort`, JavaScript's
 * `Array.prototype.sort`, all stable) and the index of the first element with
 * the least key (Python's `max`/`min`, which keep the first of equal keys).
 */
module Ranking {

  /** The first index whose key is least; later elements replace it only with a strictly smaller key. */
  function ArgMin<T>(s: seq<T>, key: T -> real): (i: nat)
    requires |s| > 0
    ensures i < |s|
    ensures forall j :: 0 <= j < |s| ==> key(s[i]) <= key(s[j])
    ensures forall j :: 0 <= j < i ==> key(s[i]) < key(s[j])
  {
    if |s| == 1 then 0
    else
      var k := 1 + ArgMin(s[1..], key);
      if key(s[0]) <= key(s[k]) then 0 else k
  }

  /** Puts x in front of the first element of s whose key is at least key(x). */
  function Insert<T>(x: T, s: seq<T>, key: T -> real): (r: seq<T>)
    ensures |r| == |s| + 1
  {
    if s == [] || key(x) <= key(s[0]) then [x] + s
    else [s[0]] + Insert(x, s[1..], key)
  }

  /** Insertion sort in ascending key order; the stable sort of the library calls. */
  function SortByKey<T>(s: seq<T>, key: T -> real): (r: seq<T>)
    ensures |r| == |s|
  {
    if s == [] then [] else Insert(s[0], SortByKey(s[1..], key), key)
  }

  ghost predicate Ascending<T>(s: seq<T>, key: T -> real)
  {
    forall i, j :: 0 <= i < j < |s| ==> key(s[i]) <= key(s[j])
  }

  /** The elements of s whose key is v, in their order in s. */
  function WithKey<T>(s: seq<T>, key: T -> real, v: real): seq<T>
  {
    if s == [] then [] else (if key(s[0]) == v then [s[0]] else []) + WithKey(s[1..], key, v)
  }

  lemma {:induction false} InsertPermutes<T>(x: T, s: seq<T>, key: T -> real)
    ensures multiset(Insert(x, s, key)) == multiset(s) + multiset{x}
  {
    if s == [] || key(x) <= key(s[0]) {
    } else {
      InsertPermutes(x, s[1..], key);
      assert s == [s[0]] + s[1..];
    }
  }

  lemma {:induction false} InsertAscending<T>(x: T, s: seq<T>, key: T -> real)
    requires Ascending(s, key)
    ensures Ascending(Insert(x, s, key), key)
  {
    if s == [] || key(x) <= key(s[0]) {
    } else {
      var rest := Insert(x, s[1..], key);
      InsertAscending(x, s[1..], key);
      InsertPermutes(x, s[1..], key);
      forall j | 0 <= j < |rest| ensures key(s[0]) <= key(rest[j]) {
        assert rest[j] in multiset(rest);
        assert rest[j] == x || rest[j] in multiset(s[1..]);
      }
    }
  }

  /** Sorting yields a permutation of its input. */
  lemma {:induction false} SortByKeyPermutes<T>(s: seq<T>, key: T -> real)
    ensures multiset(SortByKey(s, key)) == multiset(s)
  {
    if s != [] {
      SortByKeyPermutes(s[1..], key);
      InsertPermutes(s[0], SortByKey(s[1..], key), key);
      assert s == [s[0]] + s[1..];
    }
  }

  /** Sorting yields ascending keys. */
  lemma {:induction false} SortByKeyAscending<T>(s: seq<T>, key: T -> real)
    ensures Ascending(SortByKey(s, key), key)
  {
    if s != [] {
      SortByKeyAscending(s[1..], key);
      InsertAscending(s[0], SortByKey(s[1..], key), key);
    }
  }

  /** Inserting x adds x, when its key is v, in front of the elements with key v. */
  lemma {:induction false} InsertWithKey<T>(x: T, s: seq<T>, key: T -> real, v: real)
    ensures WithKey(Insert(x, s, key), key, v) == (if key(x) == v then [x] else []) + WithKey(s, key, v)
    decreases |s|
  {
    if s == [] || key(x) <= key(s[0]) {
      assert ([x] + s)[1..] == s;
    } else {
      InsertWithKeyLater(x, s, key, v);
    }
  }

  /** The case of InsertWithKey where x goes after s[0]: at most one of the two has key v. */
  lemma {:induction false} InsertWithKeyLater<T>(x: T, s: seq<T>, key: T -> real, v: real)
    requires s != [] && key(s[0]) < key(x)
    ensures WithKey(Insert(x, s, key), key, v) == (if key(x) == v then [x] else []) + WithKey(s, key, v)
    decreases |s|, 0
  {
    var r, tail := Insert(x, s, key), Insert(x, s[1..], key);
    var head, mine, rest := (if key(s[0]) == v then [s[0]] else []), (if key(x) == v then [x] else []), WithKey(s[1..], key, v);
    assert r == [s[0]] + tail;
    assert r[0] == s[0] && r[1..] == tail;
    assert WithKey(r, key, v) == head + WithKey(tail, key, v);
    InsertWithKey(x, s[1..], key, v);
    assert WithKey(s, key, v) == head + rest;
    if head == [] {
      assert head + (mine + rest) == mine + rest;
    } else {
      assert mine == [];
      assert head + (mine + rest) == head + rest == mine + (head + rest);
    }
  }

  /** Sorting is stable: the elements sharing any one key keep their relative order. */
  lemma {:induction false} SortByKeyStable<T>(s: seq<T>, key: T -> real, v: real)
    ensures WithKey(SortByKey(s, key), key, v) == WithKey(s, key, v)
  {
    if s != [] {
      SortByKeyStable(s[1..], key, v);
      InsertWithKey(s[0], SortByKey(s[1..], key), key, v);
    }
  }

  /** The head of the sorted sequence is the first element with the least key. */
  lemma {:induction false} SortByKeyHead<T>(s: seq<T>, key: T -> real)
    requires |s| > 0
    ensures SortByKey(s, key)[0] == s[ArgMin(s, key)]
  {
    if |s| > 1 {
      SortByKeyHead(s[1..], key);
    }
  }

  /** In a sequence without repetitions, dropping position i drops exactly the value s[i]. */
  lemma DropDistinct<T>(s: seq<T>, i: nat)
    requires forall a, b :: 0 <= a < b < |s| ==> s[a] != s[b]
    requires i < |s|
    ensures forall x :: x in s[..i] + s[i + 1..] <==> x in s && x != s[i]
  {
    var rest := s[..i] + s[i + 1..];
    forall x | x in rest ensures x in s && x != s[i] {
      var k :| 0 <= k < |rest| && rest[k] == x;
      if k < i { assert x == s[k]; } else { assert x == s[k + 1]; }
    }
    forall x | x in s && x != s[i] ensures x in rest {
      var k :| 0 <= k < |s| && s[k] == x;
      if k < i { assert rest[k] == x; } else { assert rest[k - 1] == x; }
    }
  }
}
