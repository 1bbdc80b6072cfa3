/** Python's `sorted(xs, key=...)`: by key, and stable. `reverse=True` keeps ties in order too: it sorts by `-key`. */
module Sorting {

  /** Insert after everything whose key is not greater. */
  function InsertBy<T(!new)>(s: seq<T>, x: T, key: T -> real): (r: seq<T>)
    ensures |r| == |s| + 1
  {
    if s == [] then [x]
    else if key(s[|s| - 1]) <= key(x) then s + [x]
    else InsertBy(s[..|s| - 1], x, key) + [s[|s| - 1]]
  }

  function SortedBy<T(!new)>(s: seq<T>, key: T -> real): seq<T> {
    if s == [] then [] else InsertBy(SortedBy(s[..|s| - 1], key), s[|s| - 1], key)
  }

  predicate Ascends<T(!new)>(s: seq<T>, key: T -> real) {
    forall i, j | 0 <= i < j < |s| :: key(s[i]) <= key(s[j])
  }

  lemma {:induction false} InsertByPermutes<T(!new)>(s: seq<T>, x: T, key: T -> real)
    ensures multiset(InsertBy(s, x, key)) == multiset(s) + multiset{x}
  {
    if s == [] || key(s[|s| - 1]) <= key(x) {
    } else {
      InsertByPermutes(s[..|s| - 1], x, key);
      assert s == s[..|s| - 1] + [s[|s| - 1]];
    }
  }

  /** Nothing in the list exceeds `bound`. */
  predicate AllBelow<T(!new)>(s: seq<T>, key: T -> real, bound: real) {
    forall i | 0 <= i < |s| :: key(s[i]) <= bound
  }

  lemma {:induction false} InsertByBelow<T(!new)>(s: seq<T>, x: T, key: T -> real, bound: real)
    requires AllBelow(s, key, bound) && key(x) <= bound
    ensures AllBelow(InsertBy(s, x, key), key, bound)
  {
    if s == [] || key(s[|s| - 1]) <= key(x) {
    } else {
      InsertByBelow(s[..|s| - 1], x, key, bound);
    }
  }

  lemma AscendsAppend<T(!new)>(s: seq<T>, x: T, key: T -> real)
    requires Ascends(s, key) && AllBelow(s, key, key(x))
    ensures Ascends(s + [x], key)
  {
  }

  lemma {:induction false} InsertByAscends<T(!new)>(s: seq<T>, x: T, key: T -> real)
    requires Ascends(s, key)
    ensures Ascends(InsertBy(s, x, key), key)
  {
    if s == [] {
    } else {
      var rest, last := s[..|s| - 1], s[|s| - 1];
      if key(last) <= key(x) {
        assert AllBelow(s, key, key(x));
        AscendsAppend(s, x, key);
      } else {
        InsertByAscends(rest, x, key);
        InsertByBelow(rest, x, key, key(last));
        AscendsAppend(InsertBy(rest, x, key), last, key);
      }
    }
  }

  /** The result is a permutation in ascending order of keys. */
  lemma {:induction false} SortedByContents<T(!new)>(s: seq<T>, key: T -> real)
    ensures Ascends(SortedBy(s, key), key)
    ensures multiset(SortedBy(s, key)) == multiset(s)
    ensures |SortedBy(s, key)| == |s|
  {
    hide InsertBy;
    if s == [] {
    } else {
      SortedByContents(s[..|s| - 1], key);
      InsertByAscends(SortedBy(s[..|s| - 1], key), s[|s| - 1], key);
      InsertByPermutes(SortedBy(s[..|s| - 1], key), s[|s| - 1], key);
      assert s == s[..|s| - 1] + [s[|s| - 1]];
    }
  }

  function WithKey<T(!new)>(s: seq<T>, key: T -> real, k: real): seq<T> {
    if s == [] then []
    else WithKey(s[..|s| - 1], key, k) + if key(s[|s| - 1]) == k then [s[|s| - 1]] else []
  }

  lemma WithKeyLast<T(!new)>(s: seq<T>, x: T, key: T -> real, k: real)
    ensures WithKey(s + [x], key, k) == WithKey(s, key, k) + if key(x) == k then [x] else []
  {
  }

  lemma {:induction false} InsertByStable<T(!new)>(s: seq<T>, x: T, key: T -> real, k: real)
    requires Ascends(s, key)
    ensures WithKey(InsertBy(s, x, key), key, k) == WithKey(s, key, k) + if key(x) == k then [x] else []
  {
    if s == [] {
      WithKeyLast([], x, key, k);
      assert [] + [x] == [x];
    } else if key(s[|s| - 1]) <= key(x) {
      WithKeyLast(s, x, key, k);
    } else {
      var rest, last := s[..|s| - 1], s[|s| - 1];
      InsertByStable(rest, x, key, k);
      WithKeyLast(InsertBy(rest, x, key), last, key, k);
    }
  }

  /** Elements with equal keys keep their order. */
  lemma {:induction false} SortedByStable<T(!new)>(s: seq<T>, key: T -> real, k: real)
    ensures WithKey(SortedBy(s, key), key, k) == WithKey(s, key, k)
  {
    if s == [] {
    } else {
      SortedByStable(s[..|s| - 1], key, k);
      SortedByContents(s[..|s| - 1], key);
      InsertByStable(SortedBy(s[..|s| - 1], key), s[|s| - 1], key, k);
    }
  }
}
