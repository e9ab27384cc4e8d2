/** Cutting a sequence into runs wherever two neighbours break, and the fact that there is only
    one way to do it. */
module Runs {
  import opened Collections

  /** A run is not empty and has no break inside. */
  predicate RunOk<T>(run: seq<T>, breaks: (T, T) -> bool) {
    run != [] && forall k :: 0 < k < |run| ==> !breaks(run[k - 1], run[k])
  }

  /** Run b follows run a: there is a break between them. */
  predicate Follows<T>(a: seq<T>, b: seq<T>, breaks: (T, T) -> bool) {
    a != [] && b != [] && breaks(a[|a| - 1], b[0])
  }

  predicate Sound<T>(runs: seq<seq<T>>, breaks: (T, T) -> bool) {
    && (forall r :: 0 <= r < |runs| ==> RunOk(runs[r], breaks))
    && (forall r :: 0 < r < |runs| ==> Follows(runs[r - 1], runs[r], breaks))
  }

  /** runs put together are xs, cut at its breaks and nowhere else. */
  ghost predicate CutAtBreaks<T>(runs: seq<seq<T>>, xs: seq<T>, breaks: (T, T) -> bool) {
    Flat(runs) == xs && Sound(runs, breaks)
  }

  function Cut<T>(xs: seq<T>, breaks: (T, T) -> bool): (runs: seq<seq<T>>)
    ensures runs == [] <==> xs == []
    ensures forall r :: 0 <= r < |runs| ==> runs[r] != []
  {
    if xs == [] then [] else Grown(Cut(xs[..|xs| - 1], breaks), xs[|xs| - 1], breaks)
  }

  /** The runs once x has come after them. */
  function Grown<T>(runs: seq<seq<T>>, x: T, breaks: (T, T) -> bool): (r: seq<seq<T>>)
    requires forall r :: 0 <= r < |runs| ==> runs[r] != []
    ensures r != [] && forall i :: 0 <= i < |r| ==> r[i] != []
  {
    if runs == [] then [[x]]
    else
      var last := runs[|runs| - 1];
      if breaks(last[|last| - 1], x) then runs + [[x]] else runs[..|runs| - 1] + [last + [x]]
  }

  lemma GrownFlat<T>(runs: seq<seq<T>>, x: T, breaks: (T, T) -> bool)
    requires forall r :: 0 <= r < |runs| ==> runs[r] != []
    ensures Flat(Grown(runs, x, breaks)) == Flat(runs) + [x]
  {
    hide Flat;
    if Grown(runs, x, breaks) == runs + [[x]] {
      FlatOneMore(runs, [x]);
    } else {
      LastRunGrows(runs, x);
    }
  }

  lemma {:induction false} LastRunGrows<T>(runs: seq<seq<T>>, x: T)
    requires runs != []
    ensures var last := runs[|runs| - 1]; Flat(runs[..|runs| - 1] + [last + [x]]) == Flat(runs) + [x]
  {
    var init, last := runs[..|runs| - 1], runs[|runs| - 1];
    FlatOneMore(init, last + [x]);
    assert Flat(runs) == Flat(init) + last;
    hide Flat;
    Reassociates(Flat(init), last, [x]);
  }

  lemma Reassociates<T>(a: seq<T>, b: seq<T>, c: seq<T>)
    ensures a + (b + c) == a + b + c
  {
  }

  lemma GrownSound<T>(runs: seq<seq<T>>, x: T, breaks: (T, T) -> bool)
    requires (forall r :: 0 <= r < |runs| ==> runs[r] != []) && Sound(runs, breaks)
    ensures Sound(Grown(runs, x, breaks), breaks)
  {
    if runs != [] {
      var last := runs[|runs| - 1];
      assert RunOk(last, breaks);
      assert |runs| > 1 ==> Follows(runs[|runs| - 2], last, breaks);
      if !breaks(last[|last| - 1], x) {
        assert RunOk(last + [x], breaks);
        hide RunOk;
        assert forall r :: 0 <= r < |runs| - 1 ==> Grown(runs, x, breaks)[r] == runs[r];
      }
    }
  }

  lemma {:induction false} CutCuts<T>(xs: seq<T>, breaks: (T, T) -> bool)
    ensures CutAtBreaks(Cut(xs, breaks), xs, breaks)
  {
    if xs != [] {
      var init := xs[..|xs| - 1];
      CutCuts(init, breaks);
      GrownFlat(Cut(init, breaks), xs[|xs| - 1], breaks);
      GrownSound(Cut(init, breaks), xs[|xs| - 1], breaks);
      hide Sound, Flat, Grown;
      assert xs == init + [xs[|xs| - 1]];
    }
  }

  /** The runs before their last element came. */
  function Shrunk<T>(a: seq<seq<T>>): seq<seq<T>>
    requires a != [] && a[|a| - 1] != []
  {
    var init, last := a[..|a| - 1], a[|a| - 1];
    if |last| == 1 then init else init + [last[..|last| - 1]]
  }

  lemma ShrunkSound<T>(a: seq<seq<T>>, breaks: (T, T) -> bool)
    requires Sound(a, breaks) && a != []
    ensures a[|a| - 1] != [] && Sound(Shrunk(a), breaks)
  {
    var last := a[|a| - 1];
    assert RunOk(last, breaks);
    assert |a| > 1 ==> Follows(a[|a| - 2], last, breaks);
  }

  lemma ShrunkGrows<T>(a: seq<seq<T>>, breaks: (T, T) -> bool)
    requires Sound(a, breaks) && a != []
    ensures a[|a| - 1] != [] && (forall r :: 0 <= r < |Shrunk(a)| ==> Shrunk(a)[r] != [])
    ensures Grown(Shrunk(a), a[|a| - 1][|a[|a| - 1]| - 1], breaks) == a
  {
    var init, last := a[..|a| - 1], a[|a| - 1];
    assert RunOk(last, breaks) && a == init + [last];
    assert forall r :: 0 <= r < |init| ==> RunOk(a[r], breaks);
    assert |a| > 1 ==> Follows(a[|a| - 2], last, breaks);
    if |last| > 1 {
      var shorter := last[..|last| - 1];
      assert last == shorter + [last[|last| - 1]];
      assert (init + [shorter])[..|init|] == init;
    } else {
      assert last == [last[0]];
    }
  }

  /** The breaks alone decide where the runs are. */
  lemma {:induction false} OnlyOneCut<T>(a: seq<seq<T>>, xs: seq<T>, breaks: (T, T) -> bool)
    requires CutAtBreaks(a, xs, breaks)
    ensures a == Cut(xs, breaks)
    decreases |xs|
  {
    if a == [] {
      assert xs == [];
    } else {
      ShrunkSound(a, breaks);
      ShrunkGrows(a, breaks);
      var x := a[|a| - 1][|a[|a| - 1]| - 1];
      GrownFlat(Shrunk(a), x, breaks);
      hide Grown, Shrunk, Sound, Flat;
      assert xs[..|xs| - 1] == Flat(Shrunk(a)) && xs[|xs| - 1] == x;
      OnlyOneCut(Shrunk(a), xs[..|xs| - 1], breaks);
    }
  }

  // ---- where runs begin ----------------------------------------------------------

  /** Some run begins with the p-th element. */
  predicate Begins<T>(runs: seq<seq<T>>, p: nat) {
    exists r :: 0 <= r < |runs| && |Flat(runs[..r])| == p
  }

  lemma {:induction false} EarlierIsShorter<T>(runs: seq<seq<T>>, r: nat)
    requires r < |runs| && forall i :: 0 <= i < |runs| ==> runs[i] != []
    ensures |Flat(runs[..r])| < |Flat(runs)|
  {
    if r < |runs| - 1 {
      EarlierIsShorter(runs[..|runs| - 1], r);
      assert runs[..|runs| - 1][..r] == runs[..r];
    }
  }

  lemma GrownBegins<T>(runs: seq<seq<T>>, x: T, breaks: (T, T) -> bool, p: nat)
    requires runs != [] && p <= |Flat(runs)| && forall r :: 0 <= r < |runs| ==> runs[r] != []
    ensures var last := runs[|runs| - 1];
            Begins(Grown(runs, x, breaks), p) <==>
            if p < |Flat(runs)| then Begins(runs, p) else breaks(last[|last| - 1], x)
  {
    hide Flat;
    var grown := Grown(runs, x, breaks);
    forall r | 0 <= r < |runs| ensures grown[..r] == runs[..r] && |Flat(runs[..r])| < |Flat(runs)| {
      EarlierIsShorter(runs, r);
    }
    if |grown| > |runs| {
      assert grown[..|runs|] == runs;
    }
  }

  /** Runs begin at the start and at every break, and nowhere else. */
  lemma {:induction false} RunsBeginExactly<T>(xs: seq<T>, breaks: (T, T) -> bool, p: nat)
    requires p < |xs|
    ensures Begins(Cut(xs, breaks), p) <==> p == 0 || breaks(xs[p - 1], xs[p])
  {
    var init, x := xs[..|xs| - 1], xs[|xs| - 1];
    var runs := Cut(init, breaks);
    if init == [] {
      assert Cut(xs, breaks) == [[x]] && [[x]][..0] == [];
    } else {
      CutCuts(init, breaks);
      var last := runs[|runs| - 1];
      assert Flat(runs) == Flat(runs[..|runs| - 1]) + last;
      assert init[|init| - 1] == last[|last| - 1];
      hide Flat, Sound, Grown;
      GrownBegins(runs, x, breaks, p);
      if p < |init| {
        RunsBeginExactly(init, breaks, p);
      }
    }
  }

  /** The k-th element is the j-th of the r-th run. */
  predicate IsAt<T>(runs: seq<seq<T>>, k: nat, r: nat, j: nat) {
    r < |runs| && j < |runs[r]| && |Flat(runs[..r])| + j == k
  }

  /** Every element is in a run, at a place of its own. */
  lemma {:induction false} Located<T>(runs: seq<seq<T>>, k: nat) returns (r: nat, j: nat)
    requires k < |Flat(runs)|
    ensures IsAt(runs, k, r, j) && Flat(runs)[k] == runs[r][j]
  {
    var init := runs[..|runs| - 1];
    if k < |Flat(init)| {
      r, j := Located(init, k);
      assert init[..r] == runs[..r];
    } else {
      r, j := |runs| - 1, k - |Flat(init)|;
    }
  }

  lemma {:induction false} FlatGrows<T>(runs: seq<seq<T>>, r: nat, q: nat)
    requires r < q <= |runs|
    ensures |Flat(runs[..r])| + |runs[r]| <= |Flat(runs[..q])|
  {
    assert runs[..q][..q - 1] == runs[..q - 1];
    if r < q - 1 {
      FlatGrows(runs, r, q - 1);
    }
  }

  lemma LocatedOnce<T>(runs: seq<seq<T>>, k: nat, r: nat, j: nat, q: nat, i: nat)
    requires IsAt(runs, k, r, j) && IsAt(runs, k, q, i)
    ensures r == q && j == i
  {
    if r < q {
      FlatGrows(runs, r, q);
    } else if q < r {
      FlatGrows(runs, q, r);
    }
  }
}
