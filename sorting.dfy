/**
 * `Array.prototype.sort` with a comparator of the form `(a, b) => key(b) - key(a)`:
 * a stable sort into descending key order. It is written as an insertion sort,
 * which is stable: an element is placed before the first element whose key is
 * not larger than its own.
 */
module Sorting {

  predicate SortedDesc<T>(s: seq<T>, key: T -> int) {
    forall i, j :: 0 <= i < j < |s| ==> key(s[i]) >= key(s[j])
  }

  function Insert<T>(x: T, s: seq<T>, key: T -> int): seq<T> {
    if s == [] then [x]
    else if key(s[0]) <= key(x) then [x] + s
    else [s[0]] + Insert(x, s[1..], key)
  }

  function SortDesc<T>(s: seq<T>, key: T -> int): seq<T> {
    if s == [] then [] else Insert(s[0], SortDesc(s[1..], key), key)
  }

  /** Inserting keeps every key at most `b` when the inserted key and all the others are. */
  lemma {:induction false} InsertBounded<T>(x: T, s: seq<T>, key: T -> int, b: int)
    requires key(x) <= b
    requires forall i :: 0 <= i < |s| ==> key(s[i]) <= b
    ensures forall i :: 0 <= i < |Insert(x, s, key)| ==> key(Insert(x, s, key)[i]) <= b
  {
    if s != [] && key(s[0]) > key(x) {
      InsertBounded(x, s[1..], key, b);
      var r := Insert(x, s[1..], key);
      assert forall i :: 0 < i < |[s[0]] + r| ==> ([s[0]] + r)[i] == r[i - 1];
    }
  }

  lemma {:induction false} InsertMultiset<T>(x: T, s: seq<T>, key: T -> int)
    ensures multiset(Insert(x, s, key)) == multiset(s) + multiset{x}
  {
    if s != [] && key(s[0]) > key(x) {
      InsertMultiset(x, s[1..], key);
      assert s == [s[0]] + s[1..];
    }
  }

  lemma {:induction false} InsertFacts<T>(x: T, s: seq<T>, key: T -> int)
    requires SortedDesc(s, key)
    ensures SortedDesc(Insert(x, s, key), key)
    ensures multiset(Insert(x, s, key)) == multiset(s) + multiset{x}
  {
    InsertMultiset(x, s, key);
    if s != [] {
      if key(s[0]) > key(x) {
        InsertFacts(x, s[1..], key);
        InsertBounded(x, s[1..], key, key(s[0]));
      } else {
        assert forall i :: 0 < i < |[x] + s| ==> ([x] + s)[i] == s[i - 1];
      }
    }
  }

  /** The sort yields a descending arrangement of exactly the input's elements. */
  lemma {:induction false} SortDescCorrect<T>(s: seq<T>, key: T -> int)
    ensures SortedDesc(SortDesc(s, key), key)
    ensures multiset(SortDesc(s, key)) == multiset(s)
    ensures |SortDesc(s, key)| == |s|
  {
    if s != [] {
      var t := SortDesc(s[1..], key);
      SortDescCorrect(s[1..], key);
      InsertFacts(s[0], t, key);
      assert SortDesc(s, key) == Insert(s[0], t, key);
      assert multiset(s) == multiset(s[1..]) + multiset{s[0]} by {
        assert s == [s[0]] + s[1..];
      }
    }
    SortDescLength(s, key);
  }

  lemma {:induction false} InsertLength<T>(x: T, s: seq<T>, key: T -> int)
    ensures |Insert(x, s, key)| == |s| + 1
  {
    if s != [] && key(s[0]) > key(x) {
      InsertLength(x, s[1..], key);
    }
  }

  lemma {:induction false} SortDescLength<T>(s: seq<T>, key: T -> int)
    ensures |SortDesc(s, key)| == |s|
  {
    if s != [] {
      SortDescLength(s[1..], key);
      InsertLength(s[0], SortDesc(s[1..], key), key);
    }
  }

  /** A list already in descending order is left exactly as it is. */
  lemma {:induction false} SortDescOfSorted<T>(s: seq<T>, key: T -> int)
    requires SortedDesc(s, key)
    ensures SortDesc(s, key) == s
  {
    if s != [] {
      assert SortedDesc(s[1..], key);
      SortDescOfSorted(s[1..], key);
      if 1 < |s| {
        assert key(s[1]) <= key(s[0]);
      }
    }
  }
}
