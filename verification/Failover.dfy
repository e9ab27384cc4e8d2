/** What a rotation guarantees over whole runs, and the loop that gives each client one
    try (failover in llm/server/speech.go). */
module Failovers {
  import opened CircularQueues
  import opened Collections
  import opened Rotations

  // ---- runs of a rotation --------------------------------------------------------

  /** One locked call, with the clock readings it takes. The index of a verdict may be stale. */
  datatype Op =
    | Verdict(index: nat, latency: int, benched: Time, now: Time)
    | Failure(index: nat, benched: Time, now: Time)
    | Rotate(now: Time)
  {
    function First(): Time { if Rotate? then now else benched }
    predicate On(n: nat) { !Rotate? ==> index < n }
  }

  predicate OpOk(op: Op, n: nat, start: Time, end: Time) {
    match op
    case Verdict(i, _, b, t) => i < n && start <= b <= t <= end
    case Failure(i, b, t) => i < n && start <= b <= t <= end
    case Rotate(t) => start <= t <= end
  }

  function Perform(st: State, op: Op, p: Policy): (r: State)
    requires st.Valid() && op.On(|st.slots|)
    ensures r.Valid() && |r.slots| == |st.slots|
  {
    match op
    case Verdict(i, latency, b, t) => Judged(st, i, Classify(latency, p), b, t, p.parole).0
    case Failure(i, b, t) => Failed(st, i, b, t, p.parole)
    case Rotate(t) => Next(st, t, p.parole)
  }

  /** Calls of any number of callers, in the order the lock admits them, on a clock that never goes back. */
  predicate Timely(ops: seq<Op>, n: nat, end: Time) {
    ops == [] || (var op := ops[|ops| - 1];
                  OpOk(op, n, 0, end) && Timely(ops[..|ops| - 1], n, op.First()))
  }

  function Fresh(n: nat): (st: State)
    requires 0 < n
    ensures st.Valid()
  {
    State(0, seq(n, _ => FRESH))
  }

  function Run(ops: seq<Op>, n: nat, p: Policy, end: Time): (st: State)
    requires 0 < n && Timely(ops, n, end)
    ensures st.Valid() && |st.slots| == n
  {
    if ops == [] then Fresh(n)
    else
      var op := ops[|ops| - 1];
      Perform(Run(ops[..|ops| - 1], n, p, op.First()), op, p)
  }

  /** The entries Current has handed out: each was selected at some point of the run. */
  function HandedOut(ops: seq<Op>, n: nat, p: Policy, end: Time): set<nat>
    requires 0 < n && Timely(ops, n, end)
  {
    if ops == [] then {0}
    else HandedOut(ops[..|ops| - 1], n, p, ops[|ops| - 1].First()) + {Run(ops, n, p, end).selected}
  }

  /** Every verdict is on an entry that Current had handed out, and nothing forces a swap, as nothing
      outside the tests does. */
  predicate ByCallers(ops: seq<Op>, n: nat, p: Policy, end: Time)
    requires 0 < n && Timely(ops, n, end)
  {
    ops == [] || (var op, init := ops[|ops| - 1], ops[..|ops| - 1];
                  !op.Rotate? && ByCallers(init, n, p, op.First()) && op.index in HandedOut(init, n, p, op.First()))
  }

  /** The states that callers of Current, Judge and Fail can bring a rotation to. */
  ghost predicate Reachable(st: State, n: nat, p: Policy, end: Time)
    requires 0 < n
  {
    exists ops :: Timely(ops, n, end) && ByCallers(ops, n, p, end) && st == Run(ops, n, p, end)
  }

  predicate Sound(st: State, now: Time) {
    && st.Valid()
    && st.slots[st.selected].score < BENCH_SCORE
    && (forall i :: 0 <= i < |st.slots| ==> 0 <= st.slots[i].score)
    && (forall i :: 0 <= i < |st.slots| ==> st.slots[i].benched <= now)
  }

  /** Under any interleaving of callers the selected entry is in range and not benched, no score is
      negative and no bench time lies in the future. */
  lemma {:induction false} EveryRunIsSound(ops: seq<Op>, n: nat, p: Policy, end: Time)
    requires 0 < n && p.Valid() && Timely(ops, n, end)
    ensures Sound(Run(ops, n, p, end), end)
  {
    if ops != [] {
      var op := ops[|ops| - 1];
      var before := op.First();
      EveryRunIsSound(ops[..|ops| - 1], n, p, before);
      PerformKeepsSound(Run(ops[..|ops| - 1], n, p, before), op, p, before, end);
    }
  }

  lemma PerformKeepsSound(st: State, op: Op, p: Policy, before: Time, end: Time)
    requires p.Valid() && Sound(st, before) && OpOk(op, |st.slots|, before, end)
    ensures Sound(Perform(st, op, p), end)
  {
    match op
    case Verdict(i, latency, b, t) =>
      var score := Rescored(st.slots[i].score, Classify(latency, p));
      NextKeepsSound(st.(slots := st.slots[i := Slot(score, b)]), t, p.parole);
    case Failure(i, b, t) =>
      NextKeepsSound(st.(slots := st.slots[i := Slot(BENCH_SCORE, b)]), t, p.parole);
    case Rotate(t) => NextKeepsSound(st, t, p.parole);
  }

  lemma NextKeepsSound(st: State, now: Time, parole: int)
    requires st.Valid()
    ensures var r := Next(st, now, parole);
            && r.slots[r.selected].score < BENCH_SCORE
            && forall i :: 0 <= i < |st.slots| ==>
                 r.slots[i].benched == st.slots[i].benched && (r.slots[i].score == st.slots[i].score || r.slots[i].score == 0)
  {
  }

  // ---- one try each --------------------------------------------------------------

  /** The clock readings of consecutive failing tries: when each was benched, and when the scan ran. */
  type Schedule = seq<(Time, Time)>

  predicate Advancing(start: Time, times: Schedule) {
    && (forall k :: 0 <= k < |times| ==> start < times[k].0 <= times[k].1)
    && (forall j, k :: 0 <= j < k < |times| ==> times[j].1 < times[k].0)
  }

  /** The rotation after k tries that all failed. */
  function After(st: State, times: Schedule, parole: int, k: nat): (r: State)
    requires st.Valid() && k <= |times|
    ensures r.Valid() && |r.slots| == |st.slots|
  {
    if k == 0 then st
    else
      var s := After(st, times, parole, k - 1);
      Failed(s, s.selected, times[k - 1].0, times[k - 1].1, parole)
  }

  /** Which entry each try goes to when every try fails. */
  function Tries(st: State, times: Schedule, parole: int): (tried: seq<nat>)
    requires st.Valid()
    ensures |tried| == |times|
  {
    seq(|times|, k requires 0 <= k < |times| => After(st, times, parole, k).selected)
  }

  /** No bench of this run is served before its last useful scan, or every bench older than the run is
      already served at its first scan. */
  predicate InTime(n: nat, start: Time, times: Schedule, parole: int)
    requires |times| == n > 0
  {
    n == 1 || times[n - 2].1 - times[0].0 < parole || times[0].1 - start >= parole
  }

  /** Mid-run: entries tried so far are benched since the run began, the others before it. */
  predicate Ongoing(st: State, tried: set<nat>, start: Time, first: Time) {
    && st.Valid()
    && start < first
    && st.selected !in tried
    && forall i :: 0 <= i < |st.slots| ==>
         if i in tried then st.slots[i].score >= BENCH_SCORE && first <= st.slots[i].benched
         else st.slots[i].benched <= start
  }

  lemma SomeoneUntried(tried: set<nat>, n: nat) returns (i: nat)
    requires |tried| < n
    ensures i < n && i !in tried
  {
    if Upto(n) <= tried {
      Fits(Upto(n), tried);
    }
    i :| i in Upto(n) && i !in tried;
  }

  lemma FailureKeepsOngoing(st: State, tried: set<nat>, start: Time, first: Time, benched: Time, now: Time, parole: int)
    requires Ongoing(st, tried, start, first)
    requires first <= benched <= now && now - first < parole
    requires |tried| + 1 < |st.slots|
    ensures Ongoing(Failed(st, st.selected, benched, now, parole), tried + {st.selected}, start, first)
    ensures |tried + {st.selected}| == |tried| + 1
  {
    var after := st.(slots := st.slots[st.selected := Slot(BENCH_SCORE, benched)]);
    var tried' := tried + {st.selected};
    var untried := SomeoneUntried(tried', |st.slots|);
    assert after.slots[untried].benched <= start;
  }

  lemma StartsOngoing(st: State, start: Time, first: Time)
    requires st.Valid() && start < first
    requires forall i :: 0 <= i < |st.slots| ==> st.slots[i].benched <= start
    ensures Ongoing(st, {}, start, first)
  {
  }

  lemma {:induction false} OngoingStep(st: State, start: Time, times: Schedule, parole: int, k: nat, tried: set<nat>)
    requires st.Valid() && Advancing(start, times) && |times| == |st.slots| && 0 < k < |times|
    requires Ongoing(After(st, times, parole, k - 1), tried, start, times[0].0) && |tried| == k - 1
    requires times[k - 1].1 - times[0].0 < parole
    ensures Ongoing(After(st, times, parole, k), tried + {After(st, times, parole, k - 1).selected}, start, times[0].0)
    ensures |tried + {After(st, times, parole, k - 1).selected}| == k
  {
    hide Failed, Ongoing;
    assert times[0].0 <= times[k - 1].0 <= times[k - 1].1;
    FailureKeepsOngoing(After(st, times, parole, k - 1), tried, start, times[0].0, times[k - 1].0, times[k - 1].1, parole);
  }

  lemma TriesGrow(st: State, times: Schedule, parole: int, k: nat)
    requires st.Valid() && k < |times|
    ensures Elements(Tries(st, times, parole)[..k + 1])
            == Elements(Tries(st, times, parole)[..k]) + {After(st, times, parole, k).selected}
  {
    hide After;
    var tries := Tries(st, times, parole);
    assert tries[..k + 1] == tries[..k] + [tries[k]];
  }

  lemma {:induction false} StaysOngoing(st: State, start: Time, times: Schedule, parole: int, k: nat)
    requires st.Valid() && Advancing(start, times) && |times| == |st.slots| && k < |times|
    requires forall i :: 0 <= i < |st.slots| ==> st.slots[i].benched <= start
    requires k == 0 || times[k - 1].1 - times[0].0 < parole
    ensures Ongoing(After(st, times, parole, k), Elements(Tries(st, times, parole)[..k]), start, times[0].0)
    ensures |Elements(Tries(st, times, parole)[..k])| == k
  {
    hide Failed, Ongoing, Tries;
    if k == 0 {
      StartsOngoing(st, start, times[0].0);
      assert Elements(Tries(st, times, parole)[..0]) == {};
    } else {
      StaysOngoing(st, start, times, parole, k - 1);
      OngoingStep(st, start, times, parole, k, Elements(Tries(st, times, parole)[..k - 1]));
      TriesGrow(st, times, parole, k - 1);
    }
  }

  /** The selection fails and the next entry round is eligible. */
  lemma MovesOne(st: State, benched: Time, now: Time, parole: int)
    requires st.Valid() && 1 < |st.slots| && Eligible(st.slots[st.At(1)], now, parole)
    ensures var s := Failed(st, st.selected, benched, now, parole);
            && s.selected == st.At(1)
            && forall j :: 1 < j < |st.slots| ==> s.slots[st.At(j)] == st.slots[st.At(j)]
  {
  }

  /** When every older bench is served, the scan always stops at the very next entry. */
  lemma {:induction false} WalksRound(st: State, start: Time, times: Schedule, parole: int, k: nat)
    requires st.Valid() && Advancing(start, times) && |times| == |st.slots| && k < |times|
    requires forall i :: 0 <= i < |st.slots| ==> st.slots[i].benched <= start
    requires times[0].1 - start >= parole
    ensures var s := After(st, times, parole, k);
            && s.selected == st.At(k)
            && forall j :: k < j < |times| ==> s.slots[st.At(j)] == st.slots[st.At(j)]
  {
    if k > 0 {
      WalksRound(st, start, times, parole, k - 1);
      var s := After(st, times, parole, k - 1);
      assert forall j :: 0 < j <= |times| - k ==> s.At(j) == st.At(k - 1 + j);
      assert s.slots[s.At(1)] == st.slots[st.At(k)];
      assert times[0].1 <= times[k - 1].1;
      hide Failed, Stalest;
      MovesOne(s, times[k - 1].0, times[k - 1].1, parole);
      forall j | k < j < |times| ensures After(st, times, parole, k).slots[st.At(j)] == st.slots[st.At(j)] {
        assert st.At(j) == s.At(j - k + 1);
      }
    }
  }

  lemma {:induction false} InTimeMeansDistinct(st: State, start: Time, times: Schedule, parole: int)
    requires st.Valid() && Advancing(start, times) && |times| == |st.slots|
    requires forall i :: 0 <= i < |st.slots| ==> st.slots[i].benched <= start
    requires InTime(|times|, start, times, parole)
    ensures Distinct(Tries(st, times, parole))
  {
    var tries := Tries(st, times, parole);
    forall i, j | 0 <= i < j < |tries|
      ensures tries[i] != tries[j]
    {
      if times[0].1 - start >= parole {
        WalksRound(st, start, times, parole, i);
        WalksRound(st, start, times, parole, j);
        assert st.At(i) != st.At(j);
      } else {
        NeverBackTo(st, start, times, parole, i, j);
      }
    }
  }

  lemma NeverBackTo(st: State, start: Time, times: Schedule, parole: int, i: nat, j: nat)
    requires st.Valid() && Advancing(start, times) && |times| == |st.slots| && i < j < |times|
    requires forall i :: 0 <= i < |st.slots| ==> st.slots[i].benched <= start
    requires times[|times| - 2].1 - times[0].0 < parole
    ensures After(st, times, parole, i).selected != After(st, times, parole, j).selected
  {
    if j - 1 < |times| - 2 {
      assert times[j - 1].1 < times[|times| - 2].0;
    }
    StaysOngoing(st, start, times, parole, j);
    assert Tries(st, times, parole)[i] in Tries(st, times, parole)[..j];
  }

  // ---- when the promise fails ----------------------------------------------------

  /** Every entry failed as the run begins, the first came back as the one benched longest ago, and late
      rewards took k of the others, from entry 2 on, below the bench score. */
  function Forgiven(n: nat, start: Time, k: nat): (st: State)
    requires 0 < n
    ensures st.Valid()
  {
    State(0, seq(n, i => Slot(if i == 0 then 0 else if 2 <= i < k + 2 then BENCH_SCORE - 1 else BENCH_SCORE, start)))
  }

  /** Selected 0, with only entry 1 benched. */
  function OneBenched(n: nat, start: Time): (st: State)
    requires 3 <= n
    ensures st.Valid() && st.selected == 0 && |st.slots| == n
  {
    Forgiven(n, start, n - 2)
  }

  /** The first k entries failed in turn, all at one instant. */
  function FailedRound(n: nat, start: Time, k: nat): (st: State)
    requires k < n
    ensures st.Valid() && st.selected == k && |st.slots| == n
  {
    State(k, seq(n, i => if i < k then Slot(BENCH_SCORE, start) else FRESH))
  }

  function FailingRound(start: Time, k: nat): (ops: seq<Op>)
    ensures |ops| == k
  {
    seq(k, i requires 0 <= i < k => Failure(i, start, start))
  }

  /** A latency that is rewarded, whatever the policy. */
  function Quick(p: Policy): (latency: int)
    requires p.Valid()
    ensures Classify(latency, p) == Reward
  {
    if p.reward < p.kill then p.reward else p.kill - 1
  }

  lemma OneMoreOp(ops: seq<Op>, op: Op, n: nat, p: Policy, end: Time)
    requires 0 < n && OpOk(op, n, 0, end) && !op.Rotate? && Timely(ops, n, op.First()) && ByCallers(ops, n, p, op.First())
    requires op.index in HandedOut(ops, n, p, op.First())
    ensures Timely(ops + [op], n, end) && ByCallers(ops + [op], n, p, end)
    ensures Run(ops + [op], n, p, end) == Perform(Run(ops, n, p, op.First()), op, p)
    ensures HandedOut(ops + [op], n, p, end)
            == HandedOut(ops, n, p, op.First()) + {Perform(Run(ops, n, p, op.First()), op, p).selected}
  {
    assert (ops + [op])[..|ops|] == ops;
    hide Perform;
  }

  lemma NobodyFailedYet(n: nat, p: Policy, start: Time)
    requires 0 < n
    ensures var ops := FailingRound(start, 0);
            && Timely(ops, n, start) && ByCallers(ops, n, p, start) && Run(ops, n, p, start) == FailedRound(n, start, 0)
            && 0 in HandedOut(ops, n, p, start)
  {
    assert FailingRound(start, 0) == [];
    assert Fresh(n) == FailedRound(n, start, 0);
  }

  lemma {:induction false} FailingRoundFails(n: nat, p: Policy, start: Time, k: nat)
    requires k < n && p.Valid()
    ensures var ops := FailingRound(start, k);
            && Timely(ops, n, start) && ByCallers(ops, n, p, start) && Run(ops, n, p, start) == FailedRound(n, start, k)
            && forall i :: 0 <= i <= k ==> i in HandedOut(ops, n, p, start)
  {
    hide Timely, ByCallers, HandedOut, Run, FailedRound, Failed;
    if k == 0 {
      NobodyFailedYet(n, p, start);
    } else {
      FailingRoundFails(n, p, start, k - 1);
      OneMoreOp(FailingRound(start, k - 1), Failure(k - 1, start, start), n, p, start);
      assert FailingRound(start, k) == FailingRound(start, k - 1) + [Failure(k - 1, start, start)];
      NextFails(n, start, k, p.parole);
    }
  }

  lemma NextFails(n: nat, start: Time, k: nat, parole: int)
    requires 0 < k < n
    ensures Failed(FailedRound(n, start, k - 1), k - 1, start, start, parole) == FailedRound(n, start, k)
  {
    var s := FailedRound(n, start, k - 1);
    var after := s.(slots := s.slots[k - 1 := Slot(BENCH_SCORE, start)]);
    assert after.At(1) == k && Eligible(after.slots[k], start, parole);
    assert after.slots == FailedRound(n, start, k).slots;
  }

  /** All fail at once; on a tie the fallback takes the first. */
  lemma LastFails(n: nat, p: Policy, start: Time)
    requires 0 < n && p.Valid()
    ensures Failed(FailedRound(n, start, n - 1), n - 1, start, start, p.parole) == Forgiven(n, start, 0)
  {
    var s := FailedRound(n, start, n - 1);
    var after := s.(slots := s.slots[n - 1 := Slot(BENCH_SCORE, start)]);
    assert forall k :: 0 <= k < n ==> !Eligible(after.slots[k], start, p.parole);
    assert after.slots[0].benched == start == after.slots[Stalest(after.slots)].benched;
  }

  function Forgiving(n: nat, p: Policy, start: Time, k: nat): (ops: seq<Op>)
    requires p.Valid()
    ensures |ops| == n + k
  {
    FailingRound(start, n) + seq(k, i requires 0 <= i < k => Verdict(i + 2, Quick(p), start, start))
  }

  lemma {:induction false} ForgivingForgives(n: nat, p: Policy, start: Time, k: nat)
    requires 3 <= n && p.Valid() && k <= n - 2
    ensures var ops := Forgiving(n, p, start, k);
            && Timely(ops, n, start) && ByCallers(ops, n, p, start) && Run(ops, n, p, start) == Forgiven(n, start, k)
            && forall i :: 0 <= i < n ==> i in HandedOut(ops, n, p, start)
  {
    hide Timely, ByCallers, HandedOut, Run;
    if k == 0 {
      FailingRoundFails(n, p, start, n - 1);
      LastFails(n, p, start);
      OneMoreOp(FailingRound(start, n - 1), Failure(n - 1, start, start), n, p, start);
      assert Forgiving(n, p, start, 0) == FailingRound(start, n - 1) + [Failure(n - 1, start, start)];
    } else {
      ForgivingForgives(n, p, start, k - 1);
      var late := Verdict(k + 1, Quick(p), start, start);
      OneMoreOp(Forgiving(n, p, start, k - 1), late, n, p, start);
      assert Forgiving(n, p, start, k) == Forgiving(n, p, start, k - 1) + [late];
      assert Forgiven(n, start, k).slots == Forgiven(n, start, k - 1).slots[k + 1 := Slot(BENCH_SCORE - 1, start)];
    }
  }

  lemma OneBenchedIsReachable(n: nat, p: Policy, start: Time)
    requires 3 <= n && p.Valid()
    ensures Reachable(OneBenched(n, start), n, p, start)
  {
    ForgivingForgives(n, p, start, n - 2);
  }

  /** Entry 1 is skipped, then the tries march up from 2. */
  lemma {:induction false} Marches(n: nat, start: Time, times: Schedule, parole: int, k: nat)
    requires 3 <= n == |times| && Advancing(start, times) && times[0].1 - start < parole
    requires 1 <= k <= n - 2
    ensures var s := After(OneBenched(n, start), times, parole, k);
            && s.selected == k + 1
            && s.slots[0] == Slot(BENCH_SCORE, times[0].0)
            && forall i :: k < i < n ==> s.slots[i].score < BENCH_SCORE
  {
    hide OneBenched, After, Failed, Advancing;
    var st := OneBenched(n, start);
    AfterFailure(st, times, parole, k - 1);
    if k == 1 {
      AfterNoFailure(st, times, parole);
      SkipsOne(n, start, times[0].0, times[0].1, parole);
    } else {
      Marches(n, start, times, parole, k - 1);
      MarchesOn(After(st, times, parole, k - 1), times[k - 1].0, times[k - 1].1, parole);
    }
  }

  lemma MarchesOn(s: State, benched: Time, now: Time, parole: int)
    requires s.Valid() && 0 < s.selected && s.selected + 1 < |s.slots| && s.slots[s.selected + 1].score < BENCH_SCORE
    ensures var r := Failed(s, s.selected, benched, now, parole);
            && r.selected == s.selected + 1 && r.slots[0] == s.slots[0]
            && forall i :: s.selected < i < |s.slots| ==> r.slots[i] == s.slots[i]
  {
    MovesOne(s, benched, now, parole);
    hide Failed;
    forall i | i == 0 || s.selected < i < |s.slots|
      ensures Failed(s, s.selected, benched, now, parole).slots[i] == s.slots[i]
    {
      var j := if i == 0 then |s.slots| - s.selected else i - s.selected;
      assert s.At(j) == i;
    }
  }

  lemma SkipsOne(n: nat, start: Time, benched: Time, now: Time, parole: int)
    requires 3 <= n && now - start < parole
    ensures var s := Failed(OneBenched(n, start), 0, benched, now, parole);
            && s.selected == 2 && s.slots[0] == Slot(BENCH_SCORE, benched)
            && forall i :: 1 < i < n ==> s.slots[i].score < BENCH_SCORE
  {
    var s := OneBenched(n, start);
    var after := s.(slots := s.slots[0 := Slot(BENCH_SCORE, benched)]);
    assert !Eligible(after.slots[after.At(1)], now, parole);
    assert Scan(after, now, parole, 2) == 2;
    assert Pick(after, now, parole) == 2;
  }

  lemma OutOfTimeRepeats(n: nat, start: Time, times: Schedule, parole: int)
    requires |times| == n > 0 && Advancing(start, times) && !InTime(n, start, times, parole)
    ensures 3 <= n && !Distinct(Tries(OneBenched(n, start), times, parole))
  {
    assert n != 2;
    var st := OneBenched(n, start);
    Marches(n, start, times, parole, n - 2);
    var s := After(st, times, parole, n - 2);
    var after := s.(slots := s.slots[n - 1 := Slot(BENCH_SCORE, times[n - 2].0)]);
    assert after.At(1) == 0;
    assert Pick(after, times[n - 2].1, parole) == 0;
    assert Tries(st, times, parole)[n - 1] == 0 == Tries(st, times, parole)[0];
  }

  /** The promise of failover, for every timing of n failing tries by a lone caller: they reach n
      different clients from every reachable rotation exactly when the timing is InTime. */
  lemma OneTryEachExactly(n: nat, p: Policy, start: Time, times: Schedule)
    requires 0 < n == |times| && p.Valid() && Advancing(start, times)
    ensures (forall st: State :: st.Valid() && Reachable(st, n, p, start) ==> Distinct(Tries(st, times, p.parole)))
            <==> InTime(n, start, times, p.parole)
  {
    if InTime(n, start, times, p.parole) {
      forall st: State | st.Valid() && Reachable(st, n, p, start)
        ensures Distinct(Tries(st, times, p.parole))
      {
        var ops :| Timely(ops, n, start) && st == Run(ops, n, p, start);
        EveryRunIsSound(ops, n, p, start);
        InTimeMeansDistinct(st, start, times, p.parole);
      }
    } else {
      OutOfTimeRepeats(n, start, times, p.parole);
      OneBenchedIsReachable(n, p, start);
    }
  }

  /** The k-th scan runs at most k turns of the loop after the first bench, each of at most d. */
  predicate Paced(times: Schedule, d: nat) {
    forall k :: 0 <= k < |times| ==> times[k].1 - times[0].0 <= k * d
  }

  /** Tries that each take all of d, on a clock that starts at 0. */
  function FullLength(n: nat, d: nat): (times: Schedule)
    requires 0 < d
    ensures |times| == n && Advancing(0, times) && Paced(times, d)
  {
    var times := seq(n, k requires 0 <= k < n => (1 + k * d, 1 + k * d));
    assert forall j, k :: 0 <= j < k < n ==> times[j].1 < times[k].0 by {
      forall j, k | 0 <= j < k < n ensures times[j].1 < times[k].0 { Grows(j, k, d); }
    }
    times
  }

  lemma Grows(j: nat, k: nat, d: nat)
    requires j < k && 0 < d
    ensures j * d < k * d
  {
    assert k * d == j * d + (k - j) * d;
  }

  /** What a caller can check beforehand: with d the most one turn of the loop takes, a try's timeout and
      what passes around it, every run is in time exactly when n - 2 turns take less than the parole, or
      there are fewer than three clients to confuse, or the parole is a single tick of the clock. */
  lemma TimeoutDecides(n: nat, d: nat, parole: int)
    requires 0 < n && 0 < d && 0 < parole
    ensures (forall start: Time, times: Schedule :: |times| == n && Advancing(start, times) && Paced(times, d) ==>
               InTime(n, start, times, parole))
            <==> n <= 2 || (n - 2) * d < parole || parole == 1
  {
    if n > 2 && (n - 2) * d >= parole && parole > 1 {
      var times := FullLength(n, d);
      assert times[0] == (1 + 0 * d, 1 + 0 * d) && times[n - 2].1 == 1 + (n - 2) * d;
      assert Advancing(0, times) && Paced(times, d) && !InTime(n, 0, times, parole);
    }
  }

  /** So when the tries are in time, any one client that is up gets its try. */
  lemma EveryClientIsReached(st: State, start: Time, times: Schedule, parole: int, up: nat)
    requires st.Valid() && Advancing(start, times) && |times| == |st.slots| && up < |st.slots|
    requires forall i :: 0 <= i < |st.slots| ==> st.slots[i].benched <= start
    requires InTime(|times|, start, times, parole)
    ensures up in Tries(st, times, parole)
  {
    var tries := Tries(st, times, parole);
    InTimeMeansDistinct(st, start, times, parole);
    TriesInRange(st, times, parole);
    hide *;
    if up !in tries {
      ElementsCount(tries);
      Fits(Elements(tries), Upto(|tries|) - {up});
    }
  }

  lemma TriesInRange(st: State, times: Schedule, parole: int)
    requires st.Valid() && |times| == |st.slots|
    ensures forall i :: i in Elements(Tries(st, times, parole)) <==> i in Tries(st, times, parole)
    ensures forall i :: i in Tries(st, times, parole) ==> i in Upto(|times|)
  {
    hide After;
  }

  // ---- failover ------------------------------------------------------------------

  datatype Attempt<R> = Answered(result: R, latency: int) | Errored | HungUp

  datatype Outcome<R> = Success(result: R) | ContextEnded | EveryClientFailed

  /** How many attempts fail, with the caller still there, before one does not. */
  function Failures<R>(attempts: seq<Attempt<R>>): (k: nat)
    ensures k <= |attempts|
    ensures forall i :: 0 <= i < k ==> attempts[i].Errored?
    ensures k < |attempts| ==> !attempts[k].Errored?
  {
    if attempts == [] || !attempts[0].Errored? then 0 else 1 + Failures(attempts[1..])
  }

  /** Attempt k is the first that is not an error. */
  predicate Decides<R>(attempts: seq<Attempt<R>>, k: int) {
    0 <= k < |attempts| && !attempts[k].Errored? && forall i :: 0 <= i < k ==> attempts[i].Errored?
  }

  lemma OneDecides<R>(attempts: seq<Attempt<R>>)
    ensures forall k :: Decides(attempts, k) <==> k == Failures(attempts) < |attempts|
  {
  }

  /** The rotation after a list of verdicts and failures. */
  function PerformAll(st: State, ops: seq<Op>, p: Policy): (r: State)
    requires st.Valid() && forall i :: 0 <= i < |ops| ==> ops[i].On(|st.slots|)
    ensures r.Valid() && |r.slots| == |st.slots|
  {
    if ops == [] then st else Perform(PerformAll(st, ops[..|ops| - 1], p), ops[|ops| - 1], p)
  }

  lemma OneMorePerformed(st: State, ops: seq<Op>, op: Op, p: Policy)
    requires st.Valid() && op.On(|st.slots|) && forall i :: 0 <= i < |ops| ==> ops[i].On(|st.slots|)
    ensures PerformAll(st, ops + [op], p) == Perform(PerformAll(st, ops, p), op, p)
  {
    assert (ops + [op])[..|ops|] == ops;
  }

  lemma NothingPerformed(st: State, p: Policy)
    requires st.Valid()
    ensures PerformAll(st, [], p) == st
  {
  }

  lemma AfterFailure(st: State, times: Schedule, parole: int, k: nat)
    requires st.Valid() && k < |times|
    ensures var s := After(st, times, parole, k);
            After(st, times, parole, k + 1) == Failed(s, s.selected, times[k].0, times[k].1, parole)
  {
  }

  /** The i-th attempt is what happens to the i-th try, times its clock readings; tried are the entries the
      tries went to, ops what was reported of them. */
  method Failover<T, R>(rotation: Rotation<T>, attempts: seq<Attempt<R>>, times: Schedule)
    returns (outcome: Outcome<R>, ghost tried: seq<nat>, ghost ops: seq<Op>)
    requires rotation.Valid() && |attempts| == |times| == |rotation.values|
    modifies rotation, rotation.slots
    ensures rotation.Valid()
    // the first attempt that does not fail decides
    ensures forall result :: outcome == Success(result) <==>
              exists k, latency :: Decides(attempts, k) && attempts[k] == Answered(result, latency)
    ensures outcome == ContextEnded <==> exists k :: Decides(attempts, k) && attempts[k].HungUp?
    ensures outcome == EveryClientFailed <==> forall i :: 0 <= i < |attempts| ==> attempts[i].Errored?
    // every failed try is a failure of the entry that was current, an answer a verdict on it, a caller that
    // hangs up costs it nothing
    ensures |tried| == if outcome.EveryClientFailed? then |attempts| else Failures(attempts) + 1
    ensures |ops| == Failures(attempts) + if outcome.Success? then 1 else 0
    ensures forall j :: 0 <= j < Failures(attempts) ==> ops[j] == Failure(tried[j], times[j].0, times[j].1)
    ensures outcome.Success? ==>
              var k := Failures(attempts);
              k < |attempts| && attempts[k].Answered? && ops[k] == Verdict(tried[k], attempts[k].latency, times[k].0, times[k].1)
    // and that is all that happens to the rotation
    ensures forall j :: 0 <= j < |ops| ==> ops[j].On(|rotation.values|)
    ensures rotation.View() == PerformAll(old(rotation.View()), ops, rotation.policy)
    ensures forall j :: 0 <= j < |tried| ==> tried[j] == After(old(rotation.View()), times, rotation.policy.parole, j).selected
  {
    hide Failed, Judged, After, PerformAll;
    ghost var st, p := rotation.View(), rotation.policy;
    assert After(st, times, p.parole, 0) == st by { AfterNoFailure(st, times, p.parole); }
    tried, ops := [], [];
    NothingPerformed(st, p);
    OneDecides(attempts);
    hide Decides;
    for i := 0 to rotation.slots.Length
      invariant rotation.Valid() && Failures(attempts) >= i
      invariant |tried| == i && forall j :: 0 <= j < i ==> tried[j] == After(st, times, p.parole, j).selected
      invariant |ops| == i && forall j :: 0 <= j < i ==> ops[j] == Failure(tried[j], times[j].0, times[j].1)
      invariant forall j :: 0 <= j < i ==> ops[j].On(|rotation.values|)
      invariant rotation.View() == After(st, times, p.parole, i) == PerformAll(st, ops, p)
    {
      assert rotation.View().Valid();
      var entry := rotation.Current();
      tried := tried + [entry.index];
      match attempts[i]
      case Answered(result, latency) =>
        var _ := rotation.Judge(entry, latency, times[i].0, times[i].1);
        OneMorePerformed(st, ops, Verdict(entry.index, latency, times[i].0, times[i].1), p);
        ops := ops + [Verdict(entry.index, latency, times[i].0, times[i].1)];
        assert Decides(attempts, i);
        return Success(result), tried, ops;
      case HungUp =>
        assert Decides(attempts, i);
        return ContextEnded, tried, ops;
      case Errored =>
        AfterFailure(st, times, p.parole, i);
        rotation.Fail(entry, times[i].0, times[i].1);
        OneMorePerformed(st, ops, Failure(entry.index, times[i].0, times[i].1), p);
        ops := ops + [Failure(entry.index, times[i].0, times[i].1)];
    }
    return EveryClientFailed, tried, ops;
  }

  lemma AfterNoFailure(st: State, times: Schedule, parole: int)
    requires st.Valid()
    ensures After(st, times, parole, 0) == st
  {
  }

  // ---- scores --------------------------------------------------------------------

  function Weigh(v: Verdict): int {
    match v
    case Kill => BENCH_SCORE
    case Reward => -1
    case Punish => 2
    case Neutral => 0
  }

  /** Twice the punished calls less the rewarded ones. */
  function Weight(vs: seq<Verdict>): int {
    if vs == [] then 0 else Weight(vs[..|vs| - 1]) + Weigh(vs[|vs| - 1])
  }

  function Score(vs: seq<Verdict>): int {
    if vs == [] then 0 else Rescored(Score(vs[..|vs| - 1]), vs[|vs| - 1])
  }

  /** A score is the weight of the worst recent stretch: no suffix of the history weighs more, and
      one weighs exactly that. */
  lemma {:induction false} ScoreIsWorstStretch(vs: seq<Verdict>)
    requires Kill !in vs
    ensures forall k :: 0 <= k <= |vs| ==> Weight(vs[k..]) <= Score(vs)
    ensures exists k :: 0 <= k <= |vs| && Weight(vs[k..]) == Score(vs)
  {
    if vs == [] {
      assert Weight(vs[0..]) == Score(vs);
    } else {
      var init, v := vs[..|vs| - 1], vs[|vs| - 1];
      ScoreIsWorstStretch(init);
      forall k | 0 <= k < |vs|
        ensures Weight(vs[k..]) == Weight(init[k..]) + Weigh(v)
      {
        assert vs[k..][..|vs| - k - 1] == init[k..];
      }
      assert Weight(vs[|vs|..]) == 0;
      var k :| 0 <= k <= |init| && Weight(init[k..]) == Score(init);
      assert Weight(init[|init|..]) == 0;
      assert Score(vs) == Weight(vs[if Score(init) + Weigh(v) < 0 then |vs| else k..]);
    }
  }

  /** The verdicts a run passed on one entry. */
  function VerdictsOn(ops: seq<Op>, i: nat, p: Policy): seq<Verdict> {
    if ops == [] then []
    else
      var op := ops[|ops| - 1];
      VerdictsOn(ops[..|ops| - 1], i, p) +
      if op.Verdict? && op.index == i then [Classify(op.latency, p)] else []
  }

  /** An entry that was neither failed nor killed nor judged up to the bench score. */
  predicate NeverBenched(ops: seq<Op>, i: nat, p: Policy) {
    ops == [] || (&& NeverBenched(ops[..|ops| - 1], i, p)
                  && !(ops[|ops| - 1].Failure? && ops[|ops| - 1].index == i)
                  && Kill !in VerdictsOn(ops, i, p)
                  && Score(VerdictsOn(ops, i, p)) < BENCH_SCORE)
  }

  lemma {:induction false} RunKeepsScore(ops: seq<Op>, n: nat, p: Policy, end: Time, i: nat)
    requires i < n && Timely(ops, n, end) && NeverBenched(ops, i, p)
    ensures Run(ops, n, p, end).slots[i].score == Score(VerdictsOn(ops, i, p)) < BENCH_SCORE
  {
    if ops != [] {
      var op, init := ops[|ops| - 1], ops[..|ops| - 1];
      var before := op.First();
      RunKeepsScore(init, n, p, before, i);
      var vs := VerdictsOn(init, i, p);
      if op.Verdict? && op.index == i {
        assert Score(VerdictsOn(ops, i, p)) == Rescored(Score(vs), Classify(op.latency, p)) by {
          assert (vs + [Classify(op.latency, p)])[..|vs|] == vs;
        }
      } else {
        assert VerdictsOn(ops, i, p) == vs;
      }
      PerformRescores(Run(init, n, p, before), op, p, i, end);
    }
  }

  /** A call moves an unbenched entry's score by its own verdict and by nothing else. */
  lemma PerformRescores(st: State, op: Op, p: Policy, i: nat, end: Time)
    requires st.Valid() && i < |st.slots| && OpOk(op, |st.slots|, 0, end)
    requires st.slots[i].score < BENCH_SCORE && !(op.Failure? && op.index == i)
    requires op.Verdict? && op.index == i ==> Rescored(st.slots[i].score, Classify(op.latency, p)) < BENCH_SCORE
    ensures Perform(st, op, p).slots[i].score ==
            if op.Verdict? && op.index == i then Rescored(st.slots[i].score, Classify(op.latency, p)) else st.slots[i].score
  {
  }

  /** Whatever other callers did to other entries, a verdict first benches an entry exactly when it is a kill
      or some stretch of verdicts ending with it weighs 10 or more. */
  lemma BenchesOnAWorstStretch(ops: seq<Op>, n: nat, p: Policy, end: Time, i: nat, v: Verdict, now: Time)
    requires i < n && Timely(ops, n, end) && NeverBenched(ops, i, p)
    ensures var history := VerdictsOn(ops, i, p) + [v];
            Judged(Run(ops, n, p, end), i, v, end, now, p.parole).1
            <==> v == Kill || exists k :: 0 <= k <= |history| && Weight(history[k..]) >= BENCH_SCORE
  {
    RunKeepsScore(ops, n, p, end, i);
    var vs := VerdictsOn(ops, i, p);
    assert (vs + [v])[..|vs|] == vs;
    NoKillsBefore(ops, i, p);
    if v != Kill {
      ScoreIsWorstStretch(vs + [v]);
    }
  }

  lemma NoKillsBefore(ops: seq<Op>, i: nat, p: Policy)
    requires NeverBenched(ops, i, p)
    ensures Kill !in VerdictsOn(ops, i, p)
  {
  }

  /** A kill benches an entry whatever went before, and it is not picked again at that moment while anybody
      else is eligible. */
  lemma KillBenches(st: State, i: nat, latency: int, benched: Time, now: Time, p: Policy)
    requires Sound(st, benched) && i < |st.slots| && p.Valid() && benched <= now < benched + p.parole
    requires latency >= p.kill
    ensures var (after, didBench) := Judged(st, i, Classify(latency, p), benched, now, p.parole);
            && didBench && after.slots[i].benched == benched
            && (if after.slots[i].score < BENCH_SCORE
                then i == st.selected == after.selected && forall k :: 0 <= k < |st.slots| && k != i ==> !Eligible(st.slots[k], now, p.parole)
                else i != after.selected)
  {
    var benchedSt := st.(slots := st.slots[i := Slot(BENCH_SCORE, benched)]);
    if i == st.selected && Scan(benchedSt, now, p.parole, 1) == |st.slots| + 1 {
      NoneEligible(benchedSt, now, p.parole);
      forall k | 0 <= k < |st.slots| && k != i ensures !Eligible(st.slots[k], now, p.parole) {
        assert benchedSt.slots[k] == st.slots[k];
      }
    }
  }
}
