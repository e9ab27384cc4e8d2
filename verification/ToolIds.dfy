/** The ids a reply's tool calls are stored under: a provider id already used in the reply gets
    the running count appended (llm/model/brain.go). */
module ToolIds {
  import opened Collections

  function Digit(d: nat): char
    requires d < 10
  {
    "0123456789"[d]
  }

  /** A number as decimal digits. */
  function Dec(n: nat): (s: string)
    ensures |s| > 0
  {
    if n < 10 then [Digit(n)] else Dec(n / 10) + [Digit(n % 10)]
  }

  predicate IsDigit(c: char) {
    '0' <= c <= '9'
  }

  function Value(s: string): nat {
    if s == [] then 0
    else 10 * Value(s[..|s| - 1]) + (if IsDigit(s[|s| - 1]) then s[|s| - 1] as int - '0' as int else 0)
  }

  lemma DigitValue(d: nat)
    requires d < 10
    ensures IsDigit(Digit(d)) && Digit(d) as int - '0' as int == d
  {
  }

  lemma {:induction false} ValueOfDec(n: nat)
    ensures forall c :: c in Dec(n) ==> IsDigit(c)
    ensures Value(Dec(n)) == n
  {
    if n < 10 {
      assert Dec(n)[..0] == [];
    } else {
      ValueOfDec(n / 10);
      var init, last := Dec(n / 10), Digit(n % 10);
      assert Dec(n) == init + [last] && Dec(n)[..|Dec(n)| - 1] == init;
      DigitValue(n % 10);
      hide Dec, Digit;
    }
  }

  /** fmt.Sprintf("%s_%d", id, count). */
  function Renamed(id: string, count: nat): string {
    id + "_" + Dec(count)
  }

  lemma LastUnderscore(id: string, count: nat)
    ensures var s := Renamed(id, count);
            s[|id|] == '_' && forall k :: |id| < k < |s| ==> s[k] != '_'
  {
    ValueOfDec(count);
    var s := Renamed(id, count);
    forall k | |id| < k < |s|
      ensures s[k] != '_'
    {
      assert s[k] == Dec(count)[k - |id| - 1] && s[k] in Dec(count);
    }
  }

  /** Printing loses nothing: the underscore before the count is the last one. */
  lemma RenamedIsInjective(a: string, i: nat, b: string, j: nat)
    requires Renamed(a, i) == Renamed(b, j)
    ensures a == b && i == j
  {
    LastUnderscore(a, i);
    LastUnderscore(b, j);
    var s := Renamed(a, i);
    assert a == s[..|a|] && b == s[..|a|];
    assert Dec(i) == s[|a| + 1..] && Dec(j) == s[|a| + 1..];
    ValueOfDec(i);
    ValueOfDec(j);
  }

  /** The stored ids of a reply whose calls carried these provider ids, in order. */
  function Stored(ids: seq<string>): (r: seq<string>)
    ensures |r| == |ids|
  {
    if ids == [] then []
    else
      var before, id := Stored(ids[..|ids| - 1]), ids[|ids| - 1];
      before + [if id in before then Renamed(id, |before|) else id]
  }

  lemma {:induction false} StoredPrefix(ids: seq<string>, k: nat)
    requires k <= |ids|
    ensures Stored(ids[..k]) == Stored(ids)[..k]
  {
    if k < |ids| {
      StoredPrefix(ids[..|ids| - 1], k);
      assert ids[..|ids| - 1][..k] == ids[..k];
    } else {
      assert ids[..k] == ids;
    }
  }

  /** The i-th stored id, by cases. */
  lemma {:induction false} StoredAt(ids: seq<string>, i: nat)
    requires i < |ids|
    ensures Stored(ids)[i] == if ids[i] in Stored(ids)[..i] then Renamed(ids[i], i) else ids[i]
  {
    StoredPrefix(ids, i + 1);
    StoredPrefix(ids, i);
    assert ids[..i + 1][..i] == ids[..i];
  }

  /** Every provider id seen so far is taken, under its own call or an earlier one. */
  lemma {:induction false} ProviderIdsAreTaken(ids: seq<string>, j: nat, i: nat)
    requires j < i <= |ids|
    ensures ids[j] in Stored(ids)[..i]
  {
    StoredAt(ids, j);
    if ids[j] in Stored(ids)[..j] {
      var k :| 0 <= k < j && Stored(ids)[k] == ids[j];
      assert Stored(ids)[..i][k] == ids[j];
    } else {
      assert Stored(ids)[..i][j] == ids[j];
    }
  }

  /** Two renamed calls never share an id. */
  lemma {:induction false} RenamesNeverCollide(ids: seq<string>, i: nat, j: nat)
    requires i < j < |ids|
    requires Stored(ids)[i] != ids[i] && Stored(ids)[j] != ids[j]
    ensures Stored(ids)[i] != Stored(ids)[j]
  {
    StoredAt(ids, i);
    StoredAt(ids, j);
    if Renamed(ids[i], i) == Renamed(ids[j], j) {
      RenamedIsInjective(ids[i], i, ids[j], j);
    }
  }

  /** From the provider ids alone: call k is given an id, as its own or as the new name of a repeat. */
  predicate Gives(ids: seq<string>, k: nat, id: string)
    requires k < |ids|
    decreases k, 1
  {
    id == ids[k] || (id == Renamed(ids[k], k) && Repeats(ids, k))
  }

  /** Call i finds its id taken, by an earlier call's own id or by the name an earlier repeat was given. */
  predicate Repeats(ids: seq<string>, i: nat)
    requires i < |ids|
    decreases i, 0
  {
    exists k :: 0 <= k < i && Gives(ids, k, ids[i])
  }

  predicate TakenBy(stored: seq<string>, i: nat, id: string)
    requires i <= |stored|
  {
    exists k :: 0 <= k < i && stored[k] == id
  }

  lemma InPrefix(stored: seq<string>, i: nat, id: string)
    requires i <= |stored|
    ensures id in stored[..i] <==> TakenBy(stored, i, id)
  {
    if k :| 0 <= k < i && stored[k] == id {
      assert stored[..i][k] == id;
    }
  }

  lemma {:induction false} RepeatsMeansTaken(ids: seq<string>, i: nat)
    requires i < |ids|
    ensures Repeats(ids, i) <==> ids[i] in Stored(ids)[..i]
    decreases i
  {
    hide Gives, Renamed, TakenBy;
    forall k | 0 <= k < i
      ensures TakenBy(Stored(ids), i, ids[k])
      ensures Stored(ids)[k] == if Repeats(ids, k) then Renamed(ids[k], k) else ids[k]
    {
      RepeatsMeansTaken(ids, k);
      ProviderIdsAreTaken(ids, k, i);
      StoredAt(ids, k);
      InPrefix(Stored(ids), i, ids[k]);
    }
    hide Stored, Repeats;
    GivenMeansTaken(ids, Stored(ids), i);
    InPrefix(Stored(ids), i, ids[i]);
  }

  lemma StoredIsGiven(ids: seq<string>, stored: seq<string>, k: nat, id: string)
    requires k < |ids| == |stored| && stored[k] == id
    requires stored[k] == if Repeats(ids, k) then Renamed(ids[k], k) else ids[k]
    ensures Gives(ids, k, id)
  {
    hide Renamed, Repeats;
  }

  lemma GivenIsTaken(ids: seq<string>, stored: seq<string>, i: nat, k: nat, id: string)
    requires k < i <= |ids| == |stored| && Gives(ids, k, id) && TakenBy(stored, i, ids[k])
    requires stored[k] == if Repeats(ids, k) then Renamed(ids[k], k) else ids[k]
    ensures TakenBy(stored, i, id)
  {
    hide Renamed, Repeats;
    if id != ids[k] {
      hide Gives;
      assert stored[k] == id;
    }
  }

  lemma RepeatIsGiven(ids: seq<string>, i: nat) returns (k: nat)
    requires i < |ids| && Repeats(ids, i)
    ensures k < i && Gives(ids, k, ids[i])
  {
    hide Renamed;
    k :| 0 <= k < i && Gives(ids, k, ids[i]);
  }

  lemma GivenRepeats(ids: seq<string>, i: nat, k: nat)
    requires k < i < |ids| && Gives(ids, k, ids[i])
    ensures Repeats(ids, i)
  {
    hide Renamed;
  }

  /** A stored id is a provider id or the new name of a repeat, and both are taken. */
  lemma {:induction false} GivenMeansTaken(ids: seq<string>, stored: seq<string>, i: nat)
    requires i < |ids| == |stored|
    requires forall k :: 0 <= k < i ==> TakenBy(stored, i, ids[k])
    requires forall k :: 0 <= k < i ==> stored[k] == if Repeats(ids, k) then Renamed(ids[k], k) else ids[k]
    ensures Repeats(ids, i) <==> TakenBy(stored, i, ids[i])
  {
    hide Renamed, Gives, Repeats;
    if TakenBy(stored, i, ids[i]) {
      var k :| 0 <= k < i && stored[k] == ids[i];
      StoredIsGiven(ids, stored, k, ids[i]);
      GivenRepeats(ids, i, k);
    }
    if Repeats(ids, i) {
      var k := RepeatIsGiven(ids, i);
      GivenIsTaken(ids, stored, i, k, ids[i]);
    }
  }

  /** A repeat whose new name a provider had already used. */
  predicate Clashes(ids: seq<string>, j: nat, i: nat)
    requires j < i < |ids|
  {
    ids[j] == Renamed(ids[i], i) && Repeats(ids, i)
  }

  /** The stored ids are pairwise different exactly when no provider id is, letter for letter, the new
      name of a later repeat. */
  lemma {:induction false} StoredIdsDistinctExactly(ids: seq<string>)
    ensures Distinct(Stored(ids)) <==> forall j, i :: 0 <= j < i < |ids| ==> !Clashes(ids, j, i)
  {
    hide Clashes, Stored;
    var stored := Stored(ids);
    forall j, i | 0 <= j < i < |ids| && Clashes(ids, j, i)
      ensures !Distinct(stored)
    {
      ClashCollides(ids, j, i);
    }
    forall j, i | 0 <= j < i < |ids| && stored[j] == stored[i]
      ensures Clashes(ids, j, i)
    {
      CollisionClashes(ids, j, i);
    }
  }

  lemma {:induction false} ClashCollides(ids: seq<string>, j: nat, i: nat)
    requires j < i < |ids| && Clashes(ids, j, i)
    ensures !Distinct(Stored(ids))
  {
    RepeatsMeansTaken(ids, i);
    StoredAt(ids, i);
    ProviderIdsAreTaken(ids, j, i);
    var k :| 0 <= k < i && Stored(ids)[k] == ids[j];
    assert Stored(ids)[k] == Stored(ids)[i];
  }

  lemma CollisionClashes(ids: seq<string>, j: nat, i: nat)
    requires j < i < |ids| && Stored(ids)[j] == Stored(ids)[i]
    ensures Clashes(ids, j, i)
  {
    StoredAt(ids, i);
    StoredAt(ids, j);
    RepeatsMeansTaken(ids, i);
    assert Stored(ids)[..i][j] == Stored(ids)[j];
    if Stored(ids)[j] != ids[j] {
      RenamedIsInjective(ids[j], j, ids[i], i);
    }
  }

  /** In particular they are whenever no provider id is another followed by an underscore and a number. */
  lemma {:induction false} DistinctWithoutNumberedIds(ids: seq<string>)
    requires forall i, j, n: nat :: 0 <= i < |ids| && 0 <= j < |ids| ==> ids[j] != Renamed(ids[i], n)
    ensures Distinct(Stored(ids))
  {
    forall j, i | 0 <= j < i < |ids|
      ensures !Clashes(ids, j, i)
    {
      assert ids[j] != Renamed(ids[i], i);
    }
    StoredIdsDistinctExactly(ids);
  }

  /** And they are not for every list a provider may send. */
  lemma NumberedIdsCanCollide()
    ensures Stored(["a_2", "a", "a"]) == ["a_2", "a", "a_2"]
  {
    var ids := ["a_2", "a", "a"];
    StoredAt(ids, 0);
    StoredAt(ids, 1);
    StoredAt(ids, 2);
    assert Dec(2) == "2" && Renamed("a", 2) == "a_2";
    assert Stored(ids)[..1] == ["a_2"];
    assert Stored(ids)[..2] == ["a_2", "a"];
    assert "a" == Stored(ids)[..2][1];
  }
}
