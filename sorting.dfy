/** A stable sort by a real-valued key: the model of Python's list.sort(key=...), which keeps
    elements with equal keys in their original order. */
module Sorting {

  predicate SortedBy<T>(s: seq<T>, key: T -> real) {
    forall i, j :: 0 <= i < j < |s| ==> key(s[i]) <= key(s[j])
  }

  /** The elements of s whose key is k, in their order in s. Stability of a sort means that
      this subsequence is the same before and after sorting, for every k. */
  function WithKey<T>(s: seq<T>, key: T -> real, k: real): seq<T> {
    if s == [] then [] else (if key(s[0]) == k then [s[0]] else []) + WithKey(s[1..], key, k)
  }

  /** Inserts x after every element whose key is at most key(x). */
  function Insert<T>(x: T, s: seq<T>, key: T -> real): seq<T> {
    if s == [] then [x]
    else if key(s[0]) <= key(x) then [s[0]] + Insert(x, s[1..], key)
    else [x] + s
  }

  /** Insertion sort, taking the input from left to right. */
  function SortAsc<T>(s: seq<T>, key: T -> real): seq<T> {
    if s == [] then [] else Insert(s[|s| - 1], SortAsc(s[..|s| - 1], key), key)
  }

  lemma {:induction false} WithKeyConcat<T>(a: seq<T>, b: seq<T>, key: T -> real, k: real)
    ensures WithKey(a + b, key, k) == WithKey(a, key, k) + WithKey(b, key, k)
  {
    if a != [] {
      assert (a + b)[1..] == a[1..] + b;
      assert (a + b)[0] == a[0];
      WithKeyConcat(a[1..], b, key, k);
    } else {
      assert a + b == b;
    }
  }

  lemma {:induction false} WithKeyNone<T>(s: seq<T>, key: T -> real, k: real)
    requires forall i :: 0 <= i < |s| ==> key(s[i]) != k
    ensures WithKey(s, key, k) == []
  {
    if s != [] {
      WithKeyNone(s[1..], key, k);
    }
  }

  lemma {:induction false} InsertMultiset<T>(x: T, s: seq<T>, key: T -> real)
    ensures multiset(Insert(x, s, key)) == multiset(s) + multiset{x}
  {
    if s != [] && key(s[0]) <= key(x) {
      InsertMultiset(x, s[1..], key);
      assert s == [s[0]] + s[1..];
    }
  }

  lemma {:induction false} InsertSorted<T>(x: T, s: seq<T>, key: T -> real)
    requires SortedBy(s, key)
    ensures SortedBy(Insert(x, s, key), key)
  {
    if s != [] && key(s[0]) <= key(x) {
      var rest := Insert(x, s[1..], key);
      InsertSorted(x, s[1..], key);
      InsertMultiset(x, s[1..], key);
      forall j | 0 <= j < |rest|
        ensures key(s[0]) <= key(rest[j])
      {
        assert rest[j] in multiset(s[1..]) + multiset{x};
        if rest[j] != x {
          assert rest[j] in s[1..];
        }
      }
    }
  }

  /** Insertion adds one element; the head is the old head when that key is at most key(x),
      and x otherwise. */
  lemma InsertHead<T>(x: T, s: seq<T>, key: T -> real)
    ensures |Insert(x, s, key)| == |s| + 1
    ensures Insert(x, s, key)[0] == if s != [] && key(s[0]) <= key(x) then s[0] else x
  {
    InsertMultiset(x, s, key);
    assert |multiset(Insert(x, s, key))| == |multiset(s)| + 1;
  }

  lemma {:induction false} InsertWithKey<T>(x: T, s: seq<T>, key: T -> real, k: real)
    requires SortedBy(s, key)
    ensures WithKey(Insert(x, s, key), key, k) == WithKey(s, key, k) + WithKey([x], key, k)
  {
    if s == [] {
      assert Insert(x, s, key) == [x];
      assert WithKey(s, key, k) == [];
    } else if key(s[0]) <= key(x) {
      assert SortedBy(s[1..], key) by {
        forall i, j | 0 <= i < j < |s[1..]|
          ensures key(s[1..][i]) <= key(s[1..][j])
        {
          assert s[1..][i] == s[i + 1] && s[1..][j] == s[j + 1];
        }
      }
      InsertWithKey(x, s[1..], key, k);
      assert Insert(x, s, key) == [s[0]] + Insert(x, s[1..], key);
      WithKeyConcat([s[0]], Insert(x, s[1..], key), key, k);
      WithKeyConcat([s[0]], s[1..], key, k);
      assert [s[0]] + s[1..] == s;
    } else {
      assert Insert(x, s, key) == [x] + s;
      WithKeyConcat([x], s, key, k);
      assert [x][1..] == [];
      if key(x) == k {
        assert forall i :: 0 <= i < |s| ==> key(s[0]) <= key(s[i]);
        WithKeyNone(s, key, k);
      } else {
        assert WithKey([x], key, k) == [] + WithKey([x][1..], key, k);
      }
    }
  }

  /** The sort orders by key, keeps the multiset of elements, and is stable. */
  lemma {:induction false} SortAscCorrect<T>(s: seq<T>, key: T -> real)
    ensures SortedBy(SortAsc(s, key), key)
    ensures multiset(SortAsc(s, key)) == multiset(s)
    ensures |SortAsc(s, key)| == |s|
  {
    if s != [] {
      var init := s[..|s| - 1];
      SortAscCorrect(init, key);
      InsertSorted(s[|s| - 1], SortAsc(init, key), key);
      InsertMultiset(s[|s| - 1], SortAsc(init, key), key);
      assert s == init + [s[|s| - 1]];
      assert |multiset(SortAsc(s, key))| == |multiset(s)|;
    }
  }

  lemma {:induction false} SortAscStable<T>(s: seq<T>, key: T -> real, k: real)
    ensures WithKey(SortAsc(s, key), key, k) == WithKey(s, key, k)
  {
    if s != [] {
      var init := s[..|s| - 1];
      SortAscStable(init, key, k);
      SortAscCorrect(init, key);
      InsertWithKey(s[|s| - 1], SortAsc(init, key), key, k);
      assert s == init + [s[|s| - 1]];
      WithKeyConcat(init, [s[|s| - 1]], key, k);
    }
  }

  /** The head of the sorted sequence is the earliest element of s with the least key:
      ties are broken in favour of the first-listed element. */
  lemma {:induction false} SortAscHead<T>(s: seq<T>, key: T -> real) returns (i: nat)
    requires |s| > 0
    ensures i < |s| && |SortAsc(s, key)| == |s| && SortAsc(s, key)[0] == s[i]
    ensures forall j :: 0 <= j < |s| ==> key(s[i]) <= key(s[j])
    ensures forall j :: 0 <= j < i ==> key(s[i]) < key(s[j])
  {
    var init, x := s[..|s| - 1], s[|s| - 1];
    var sorted := SortAsc(init, key);
    assert SortAsc(s, key) == Insert(x, sorted, key);
    assert forall j :: 0 <= j < |init| ==> s[j] == init[j];
    if init == [] {
      assert sorted == [];
      InsertHead(x, sorted, key);
      i := 0;
    } else {
      var i0 := SortAscHead(init, key);
      InsertHead(x, sorted, key);
      if key(sorted[0]) <= key(x) {
        i := i0;
      } else {
        i := |s| - 1;
      }
    }
  }
}
