/** A few facts about sequences and sets that several modules share. */
module Collections {

  predicate Distinct<T(==)>(s: seq<T>) {
    forall i, j :: 0 <= i < j < |s| ==> s[i] != s[j]
  }

  function Elements<T>(s: seq<T>): set<T> {
    set x | x in s
  }

  lemma Fits<T>(a: set<T>, b: set<T>)
    requires a <= b
    ensures |a| <= |b|
  {
    assert b == a + (b - a);
  }

  /** A sequence has no more elements than places, and as many exactly when they are distinct. */
  lemma {:induction false} ElementsCount<T>(s: seq<T>)
    ensures |Elements(s)| <= |s|
    ensures Distinct(s) <==> |Elements(s)| == |s|
  {
    if s != [] {
      ElementsCount(s[1..]);
      assert Elements(s) == {s[0]} + Elements(s[1..]);
      assert s[0] in s[1..] ==> !Distinct(s);
      assert Distinct(s) <==> Distinct(s[1..]) && s[0] !in s[1..];
    }
  }

  function Upto(n: nat): (s: set<nat>)
    ensures |s| == n && forall i :: i in s <==> 0 <= i < n
  {
    if n == 0 then {} else Upto(n - 1) + {n - 1}
  }

  /** Sequences put end to end. */
  function Flat<T>(parts: seq<seq<T>>): seq<T> {
    if parts == [] then [] else Flat(parts[..|parts| - 1]) + parts[|parts| - 1]
  }

  lemma FlatOneMore<T>(parts: seq<seq<T>>, part: seq<T>)
    ensures Flat(parts + [part]) == Flat(parts) + part
  {
    assert (parts + [part])[..|parts|] == parts;
  }

  lemma {:induction false} FlatCons<T>(part: seq<T>, parts: seq<seq<T>>)
    ensures Flat([part] + parts) == part + Flat(parts)
  {
    if parts == [] {
      assert [part] + parts == [] + [part];
      FlatOneMore([], part);
    } else {
      var init, last := parts[..|parts| - 1], parts[|parts| - 1];
      FlatCons(part, init);
      FlatOneMore([part] + init, last);
      assert [part] + parts == [part] + init + [last];
    }
  }

  lemma SuffixSlice<T>(s: seq<T>, gone: nat, lo: nat, hi: nat)
    requires gone <= |s| && lo <= hi <= |s| - gone
    ensures s[gone..][lo..hi] == s[gone + lo..gone + hi]
  {
  }

  lemma PrefixSlice<T>(s: seq<T>, n: nat, lo: nat, hi: nat)
    requires lo <= hi <= n <= |s|
    ensures s[..n][lo..hi] == s[lo..hi]
  {
  }

  lemma SliceOneMore<T>(s: seq<T>, lo: nat, hi: nat)
    requires lo <= hi < |s|
    ensures s[lo..hi + 1] == s[lo..hi] + [s[hi]]
  {
  }

  /** The weights of a sequence's elements, put together. */
  function Total<T>(s: seq<T>, weight: T -> nat): nat {
    if s == [] then 0 else Total(s[..|s| - 1], weight) + weight(s[|s| - 1])
  }

  lemma TotalOneMore<T>(s: seq<T>, x: T, weight: T -> nat)
    ensures Total(s + [x], weight) == Total(s, weight) + weight(x)
  {
    assert (s + [x])[..|s|] == s;
  }

  lemma {:induction false} TotalUpdate<T>(s: seq<T>, i: nat, x: T, weight: T -> nat)
    requires i < |s|
    ensures Total(s[i := x], weight) + weight(s[i]) == Total(s, weight) + weight(x)
  {
    var last := |s| - 1;
    if i < last {
      TotalUpdate(s[..last], i, x, weight);
      assert s[i := x][..last] == s[..last][i := x];
    } else {
      assert s[i := x][..last] == s[..last];
    }
  }

  lemma {:induction false} TotalOfNone<T>(s: seq<T>, weight: T -> nat)
    requires forall i :: 0 <= i < |s| ==> weight(s[i]) == 0
    ensures Total(s, weight) == 0
  {
    if s != [] {
      TotalOfNone(s[..|s| - 1], weight);
    }
  }

  /** The elements that satisfy keep, in order. */
  function Filter<T>(s: seq<T>, keep: T -> bool): seq<T> {
    if s == [] then []
    else Filter(s[..|s| - 1], keep) + if keep(s[|s| - 1]) then [s[|s| - 1]] else []
  }

  lemma {:induction false} FilterJoin<T>(a: seq<T>, b: seq<T>, keep: T -> bool)
    ensures Filter(a + b, keep) == Filter(a, keep) + Filter(b, keep)
  {
    if b == [] {
      assert a + b == a;
    } else {
      var init, x := b[..|b| - 1], b[|b| - 1];
      FilterJoin(a, init, keep);
      assert (a + b)[..|a + b| - 1] == a + init;
    }
  }

  lemma {:induction false} FilterAll<T>(s: seq<T>, keep: T -> bool)
    requires forall i :: 0 <= i < |s| ==> keep(s[i])
    ensures Filter(s, keep) == s
  {
    if s != [] {
      FilterAll(s[..|s| - 1], keep);
      assert s == s[..|s| - 1] + [s[|s| - 1]];
    }
  }

  lemma {:induction false} FilterNone<T>(s: seq<T>, keep: T -> bool)
    requires forall i :: 0 <= i < |s| ==> !keep(s[i])
    ensures Filter(s, keep) == []
  {
    if s != [] {
      FilterNone(s[..|s| - 1], keep);
    }
  }

  /** What a filter keeps depends, but for the order, only on what there is. */
  lemma {:induction false} FilterCounts<T>(s: seq<T>, keep: T -> bool, x: T)
    ensures multiset(Filter(s, keep))[x] == if keep(x) then multiset(s)[x] else 0
  {
    if s != [] {
      FilterCounts(s[..|s| - 1], keep, x);
      assert s == s[..|s| - 1] + [s[|s| - 1]];
    }
  }

  /** The j-th of some sequences put end to end is found where the earlier ones end. */
  lemma {:induction false} PartOfFlat<T>(parts: seq<seq<T>>, j: nat)
    requires j < |parts|
    ensures var at := |Flat(parts[..j])|;
            at + |parts[j]| <= |Flat(parts)| && Flat(parts)[at..at + |parts[j]|] == parts[j]
  {
    var init := parts[..|parts| - 1];
    if j < |init| {
      PartOfFlat(init, j);
      assert init[..j] == parts[..j];
    }
  }

  lemma EndOfSlice<T>(s: seq<T>, at: nat, part: seq<T>, last: seq<T>)
    requires at + |part| <= |s| && s[at..at + |part|] == part
    requires |last| <= |part| && part[|part| - |last|..] == last
    ensures s[at + |part| - |last|..at + |part|] == last
  {
    forall i | 0 <= i < |last| ensures s[at + |part| - |last| + i] == last[i] {
      assert s[at..at + |part|][|part| - |last| + i] == part[|part| - |last|..][i];
    }
  }

  lemma {:induction false} FlatLength<T>(parts: seq<seq<T>>, n: nat)
    requires forall k :: 0 <= k < |parts| ==> |parts[k]| == n
    ensures |Flat(parts)| == |parts| * n
  {
    if parts != [] {
      FlatLength(parts[..|parts| - 1], n);
      assert (|parts| - 1) * n + n == |parts| * n;
    }
  }

  /** Parts of one length lie end to end. */
  lemma FlatAt<T>(parts: seq<seq<T>>, n: nat, i: nat, b: nat)
    requires (forall k :: 0 <= k < |parts| ==> |parts[k]| == n) && i < |parts| && b < n
    ensures i * n + b < |Flat(parts)| && Flat(parts)[i * n + b] == parts[i][b]
  {
    FlatLength(parts[..i], n);
    PartOfFlat(parts, i);
    var at := |Flat(parts[..i])|;
    assert Flat(parts)[at..at + n][b] == Flat(parts)[at + b];
    hide Flat;
  }
}
