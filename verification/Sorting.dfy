/** Sorting by a key, as slices.SortFunc is used: the result is in order and a permutation. The
    library's sort is not stable, so callers are promised no more than that. */
module Sorting {

  predicate InOrder<T>(s: seq<T>, key: T -> nat) {
    forall i, j :: 0 <= i < j < |s| ==> key(s[i]) <= key(s[j])
  }

  function Placed<T>(s: seq<T>, x: T, key: T -> nat): seq<T> {
    if s == [] || key(s[|s| - 1]) <= key(x) then s + [x] else Placed(s[..|s| - 1], x, key) + [s[|s| - 1]]
  }

  function Sorted<T>(s: seq<T>, key: T -> nat): seq<T> {
    if s == [] then [] else Placed(Sorted(s[..|s| - 1], key), s[|s| - 1], key)
  }

  lemma AppendInOrder<T>(s: seq<T>, last: T, key: T -> nat)
    requires InOrder(s, key) && (s != [] ==> key(s[|s| - 1]) <= key(last))
    ensures InOrder(s + [last], key)
  {
  }

  lemma {:induction false} PlacedInOrder<T>(s: seq<T>, x: T, key: T -> nat)
    requires InOrder(s, key)
    ensures var r := Placed(s, x, key);
            r != [] && InOrder(r, key) && (r[|r| - 1] == x || (s != [] && r[|r| - 1] == s[|s| - 1]))
  {
    if s != [] && key(x) < key(s[|s| - 1]) {
      PlacedInOrder(s[..|s| - 1], x, key);
      AppendInOrder(Placed(s[..|s| - 1], x, key), s[|s| - 1], key);
    } else {
      AppendInOrder(s, x, key);
    }
  }

  lemma {:induction false} PlacedPermutes<T>(s: seq<T>, x: T, key: T -> nat)
    ensures multiset(Placed(s, x, key)) == multiset(s) + multiset{x}
  {
    if s != [] && key(x) < key(s[|s| - 1]) {
      PlacedPermutes(s[..|s| - 1], x, key);
      assert s == s[..|s| - 1] + [s[|s| - 1]];
    }
  }

  lemma {:induction false} SortedInOrder<T>(s: seq<T>, key: T -> nat)
    ensures InOrder(Sorted(s, key), key) && multiset(Sorted(s, key)) == multiset(s)
  {
    if s != [] {
      SortedInOrder(s[..|s| - 1], key);
      PlacedInOrder(Sorted(s[..|s| - 1], key), s[|s| - 1], key);
      PlacedPermutes(Sorted(s[..|s| - 1], key), s[|s| - 1], key);
      assert s == s[..|s| - 1] + [s[|s| - 1]];
    }
  }

  method Sort<T>(s: seq<T>, key: T -> nat) returns (r: seq<T>)
    ensures InOrder(r, key) && multiset(r) == multiset(s)
  {
    SortedInOrder(s, key);
    r := Sorted(s, key);
  }
}
