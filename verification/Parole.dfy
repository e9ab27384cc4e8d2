/** What a bench is worth (Parole in shared/rotation.go). Verdicts that land late are still
    counted against it: they can take it off the bench, and keep it there, before its parole is up. */
module Paroles {
  import opened Rotations
  import opened Failovers

  predicate Benched(slot: Slot) {
    slot.score >= BENCH_SCORE
  }

  /** The rotation once an operation has recorded its verdict, before it moves the selection. */
  function Recorded(st: State, op: Op, p: Policy): (r: State)
    requires st.Valid() && OpOk(op, |st.slots|, 0, op.now)
    ensures r.Valid() && |r.slots| == |st.slots| && r.selected == st.selected
  {
    match op
    case Rotate(_) => st
    case Failure(i, b, _) => st.(slots := st.slots[i := Slot(BENCH_SCORE, b)])
    case Verdict(i, latency, b, _) =>
      var score := Rescored(st.slots[i].score, Classify(latency, p));
      st.(slots := st.slots[i := Slot(score, if score >= BENCH_SCORE then b else st.slots[i].benched)])
  }

  /** The selection moves when it is forced to, and when a verdict benches the selected entry. */
  predicate Moves(st: State, op: Op, p: Policy)
    requires st.Valid() && OpOk(op, |st.slots|, 0, op.now)
  {
    op.Rotate? || (op.index == st.selected && Benched(Recorded(st, op, p).slots[op.index]))
  }

  /** A verdict on an entry that just reaches the bench score, for a call that was quick. */
  predicate LateReward(st: State, op: Op, i: nat, p: Policy)
    requires i < |st.slots|
  {
    op.Verdict? && op.index == i && Classify(op.latency, p) == Reward && st.slots[i].score == BENCH_SCORE
  }

  /** The move takes the entry once its parole is up. */
  predicate Paroled(st: State, op: Op, i: nat, p: Policy)
    requires st.Valid() && OpOk(op, |st.slots|, 0, op.now) && i < |st.slots|
  {
    var r := Recorded(st, op, p);
    Moves(st, op, p) && Pick(r, op.now, p.parole) == i && op.now - r.slots[i].benched >= p.parole
  }

  predicate NobodyEligible(st: State, now: Time, parole: int) {
    forall k :: 0 <= k < |st.slots| ==> !Eligible(st.slots[k], now, parole)
  }

  /** The move finds nobody eligible, and the entry has been benched the longest. */
  predicate LastResort(st: State, op: Op, i: nat, p: Policy)
    requires st.Valid() && OpOk(op, |st.slots|, 0, op.now)
  {
    var r := Recorded(st, op, p);
    Moves(st, op, p) && NobodyEligible(r, op.now, p.parole) && Stalest(r.slots) == i
  }

  /** A benched entry is picked before its parole only when nobody at all is eligible and none has been
      benched longer. */
  lemma PickedEarlyExactly(st: State, now: Time, parole: int, i: nat)
    requires st.Valid() && i < |st.slots| && Benched(st.slots[i]) && now - st.slots[i].benched < parole
    ensures Pick(st, now, parole) == i <==> NobodyEligible(st, now, parole) && Stalest(st.slots) == i
  {
    if Scan(st, now, parole, 1) == |st.slots| + 1 {
      NoneEligible(st, now, parole);
    }
  }

  lemma PerformIs(st: State, op: Op, p: Policy)
    requires st.Valid() && OpOk(op, |st.slots|, 0, op.now)
    ensures Perform(st, op, p) ==
            if Moves(st, op, p) then Next(Recorded(st, op, p), op.now, p.parole) else Recorded(st, op, p)
  {
    hide Next, Classify, Rescored;
  }

  /** One operation takes an entry off the bench exactly in those three ways. */
  lemma OffTheBenchExactly(st: State, op: Op, p: Policy, i: nat, before: Time)
    requires Sound(st, before) && OpOk(op, |st.slots|, before, op.now) && i < |st.slots| && Benched(st.slots[i])
    ensures !Benched(Perform(st, op, p).slots[i]) <==> LateReward(st, op, i, p) || Paroled(st, op, i, p) || LastResort(st, op, i, p)
  {
    PerformIs(st, op, p);
    var r := Recorded(st, op, p);
    if Moves(st, op, p) {
      assert r.slots[i] == st.slots[i];
      hide Moves, Recorded, Perform;
      if op.now - r.slots[i].benched < p.parole {
        PickedEarlyExactly(r, op.now, p.parole, i);
      }
    }
  }

  /** Any other verdict on a benched entry starts its parole again, a reward above the bench score too. */
  lemma ParoleRestartsExactly(st: State, op: Op, p: Policy, i: nat, before: Time)
    requires Sound(st, before) && OpOk(op, |st.slots|, before, op.now) && i < |st.slots| && Benched(st.slots[i])
    ensures Perform(st, op, p).slots[i].benched ==
            if !op.Rotate? && op.index == i && !LateReward(st, op, i, p) then op.benched else st.slots[i].benched
  {
  }

  // ---- whole runs ----------------------------------------------------------------

  /** The clock by which the first k operations of a run are over. */
  function Till(ops: seq<Op>, k: nat, end: Time): Time
    requires k <= |ops|
  {
    if k == |ops| then end else ops[k].First()
  }

  lemma {:induction false} PrefixTimely(ops: seq<Op>, n: nat, end: Time, k: nat)
    requires Timely(ops, n, end) && k <= |ops|
    ensures Timely(ops[..k], n, Till(ops, k, end)) && Till(ops, k, end) <= end
    ensures k < |ops| ==> OpOk(ops[k], n, 0, end)
  {
    if k < |ops| {
      var init := ops[..|ops| - 1];
      PrefixTimely(init, n, ops[|ops| - 1].First(), k);
      assert init[..k] == ops[..k];
    } else {
      assert ops[..k] == ops;
    }
  }

  /** The rotation after the first k operations of a run. */
  function At(ops: seq<Op>, n: nat, p: Policy, end: Time, k: nat): (st: State)
    requires 0 < n && Timely(ops, n, end) && k <= |ops|
    ensures st.Valid() && |st.slots| == n
  {
    PrefixTimely(ops, n, end, k);
    Run(ops[..k], n, p, Till(ops, k, end))
  }

  lemma AtNext(ops: seq<Op>, n: nat, p: Policy, end: Time, k: nat)
    requires 0 < n && p.Valid() && Timely(ops, n, end) && k < |ops|
    ensures OpOk(ops[k], n, Till(ops, k, end), end) && Sound(At(ops, n, p, end, k), Till(ops, k, end))
    ensures At(ops, n, p, end, k + 1) == Perform(At(ops, n, p, end, k), ops[k], p)
  {
    PrefixTimely(ops, n, end, k);
    PrefixTimely(ops, n, end, k + 1);
    assert ops[..k + 1][..k] == ops[..k];
    EveryRunIsSound(ops[..k], n, p, Till(ops, k, end));
  }

  /** The k-th operation takes entry i off the bench with no regard to its parole. */
  predicate ForgivenAt(ops: seq<Op>, n: nat, p: Policy, end: Time, i: nat, k: nat)
    requires 0 < n && p.Valid() && Timely(ops, n, end) && k < |ops| && i < n
  {
    AtNext(ops, n, p, end, k);
    LateReward(At(ops, n, p, end, k), ops[k], i, p) || LastResort(At(ops, n, p, end, k), ops[k], i, p)
  }

  lemma SitsThrough(st: State, op: Op, p: Policy, i: nat, before: Time)
    requires Sound(st, before) && OpOk(op, |st.slots|, before, op.now) && i < |st.slots| && Benched(st.slots[i])
    requires op.now - st.slots[i].benched < p.parole && !LateReward(st, op, i, p) && !LastResort(st, op, i, p)
    ensures Benched(Perform(st, op, p).slots[i]) && Perform(st, op, p).slots[i].benched >= st.slots[i].benched
  {
    OffTheBenchExactly(st, op, p, i, before);
    ParoleRestartsExactly(st, op, p, i, before);
    assert !Paroled(st, op, i, p);
    hide Perform, LateReward, LastResort, Paroled;
  }

  lemma {:induction false} StaysBenched(ops: seq<Op>, n: nat, p: Policy, end: Time, i: nat, from: nat, k: nat)
    requires i < n && p.Valid() && Timely(ops, n, end) && from <= k <= |ops|
    requires Benched(At(ops, n, p, end, from).slots[i]) && end - At(ops, n, p, end, from).slots[i].benched < p.parole
    requires forall j :: from <= j < k ==> !ForgivenAt(ops, n, p, end, i, j)
    ensures Benched(At(ops, n, p, end, k).slots[i])
    ensures At(ops, n, p, end, k).slots[i].benched >= At(ops, n, p, end, from).slots[i].benched
  {
    if from < k {
      StaysBenched(ops, n, p, end, i, from, k - 1);
      AtNext(ops, n, p, end, k - 1);
      PrefixTimely(ops, n, end, k - 1);
      assert !ForgivenAt(ops, n, p, end, i, k - 1);
      hide At, Perform, Timely, LateReward, LastResort;
      SitsThrough(At(ops, n, p, end, k - 1), ops[k - 1], p, i, Till(ops, k - 1, end));
    }
  }

  lemma ForgivenIsOff(ops: seq<Op>, n: nat, p: Policy, end: Time, i: nat, k: nat)
    requires i < n && p.Valid() && Timely(ops, n, end) && k < |ops| && ForgivenAt(ops, n, p, end, i, k)
    ensures !Benched(At(ops, n, p, end, k + 1).slots[i])
  {
    AtNext(ops, n, p, end, k);
    PerformIs(At(ops, n, p, end, k), ops[k], p);
    if LastResort(At(ops, n, p, end, k), ops[k], i, p) {
      assert Pick(Recorded(At(ops, n, p, end, k), ops[k], p), ops[k].now, p.parole) == i;
    }
    hide At, Timely;
  }

  /** What the parole of a bench is worth, over any run of any callers: until it is up the entry comes off
      the bench exactly when a late reward finds it at the bench score, or a move finds nobody eligible
      and no entry benched longer. */
  lemma SitsOutExactly(ops: seq<Op>, n: nat, p: Policy, end: Time, i: nat, from: nat)
    requires i < n && p.Valid() && Timely(ops, n, end) && from <= |ops|
    requires Benched(At(ops, n, p, end, from).slots[i]) && end - At(ops, n, p, end, from).slots[i].benched < p.parole
    ensures (exists k :: from <= k <= |ops| && !Benched(At(ops, n, p, end, k).slots[i]))
            <==> exists k :: from <= k < |ops| && ForgivenAt(ops, n, p, end, i, k)
  {
    hide At, Timely, ForgivenAt;
    if k :| from <= k < |ops| && ForgivenAt(ops, n, p, end, i, k) {
      ForgivenIsOff(ops, n, p, end, i, k);
    } else {
      forall k | from <= k <= |ops| ensures Benched(At(ops, n, p, end, k).slots[i]) {
        StaysBenched(ops, n, p, end, i, from, k);
      }
    }
  }

  lemma LaterEnd(ops: seq<Op>, n: nat, p: Policy, end: Time, later: Time)
    requires 0 < n && Timely(ops, n, end) && end <= later
    ensures Timely(ops, n, later) && Run(ops, n, p, later) == Run(ops, n, p, end)
    ensures ByCallers(ops, n, p, later) <==> ByCallers(ops, n, p, end)
    ensures HandedOut(ops, n, p, later) == HandedOut(ops, n, p, end)
  {
  }

  /** So a bench need not be served: three entries, the last selected, the second long benched, the first
      benched at this instant. A late reward takes the first to one below the bench score, and the next
      move picks it although the second, whose parole is up, is eligible. */
  lemma LateRewardSkipsParole(p: Policy) returns (ops: seq<Op>, end: Time)
    requires p.Valid()
    ensures var all := ops + [Verdict(0, Quick(p), end, end), Failure(2, end, end)];
            Timely(ops, 3, end) && Timely(all, 3, end) && ByCallers(all, 3, p, end)
    ensures var benched := Run(ops, 3, p, end);
            var rewarded := Perform(benched, Verdict(0, Quick(p), end, end), p);
            && Benched(benched.slots[0]) && benched.slots[0].benched == end
            && rewarded.selected == 2 && Eligible(rewarded.slots[1], end, p.parole)
            && Perform(rewarded, Failure(2, end, end), p).selected == 0
  {
    var first := FailingRound(0, 2);
    FailingRoundFails(3, p, 0, 2);
    end := p.parole;
    LaterEnd(first, 3, p, 0, end);
    var again, late, last := Failure(0, end, end), Verdict(0, Quick(p), end, end), Failure(2, end, end);
    OneMoreOp(first, again, 3, p, end);
    ops := first + [again];
    OneMoreOp(ops, late, 3, p, end);
    OneMoreOp(ops + [late], last, 3, p, end);
    assert ops + [late, last] == ops + [late] + [last];
    hide Timely, ByCallers, HandedOut, Run;
    var st := State(2, [Slot(BENCH_SCORE - 1, end), Slot(BENCH_SCORE, 0), FRESH]);
    assert Perform(Run(ops, 3, p, end), late, p) == st;
    var after := st.(slots := st.slots[2 := Slot(BENCH_SCORE, end)]);
    assert after.At(1) == 0 && Eligible(after.slots[0], end, p.parole);
  }

  // ---- how high a score can climb ------------------------------------------------

  ghost predicate Scored(n: nat, p: Policy, m: nat)
    requires 0 < n
  {
    exists ops, end: Time, i: nat ::
      Timely(ops, n, end) && ByCallers(ops, n, p, end) && i < n && Run(ops, n, p, end).slots[i].score >= m
  }

  function Slow(p: Policy): int {
    if p.punish > p.reward then p.punish else p.reward + 1
  }

  lemma {:induction false} Climbs(n: nat, p: Policy, k: nat)
    requires 2 <= n && p.Valid() && Classify(Slow(p), p) == Punish
    ensures var ops := FailingRound(0, 1) + seq(k, _ => Verdict(0, Slow(p), 0, 0));
            && Timely(ops, n, 0) && ByCallers(ops, n, p, 0) && 0 in HandedOut(ops, n, p, 0)
            && Run(ops, n, p, 0).selected == 1 && Run(ops, n, p, 0).slots[0].score == BENCH_SCORE + 2 * k
  {
    hide Timely, ByCallers, HandedOut, Run;
    var late := Verdict(0, Slow(p), 0, 0);
    if k == 0 {
      FailingRoundFails(n, p, 0, 1);
      assert FailingRound(0, 1) + seq(0, _ => late) == FailingRound(0, 1);
    } else {
      var ops := FailingRound(0, 1) + seq(k - 1, _ => late);
      Climbs(n, p, k - 1);
      OneMoreOp(ops, late, n, p, 0);
      assert FailingRound(0, 1) + seq(k, _ => late) == ops + [late];
    }
  }

  lemma {:induction false} NeverAbove(ops: seq<Op>, n: nat, p: Policy, end: Time, i: nat)
    requires i < n && p.Valid() && Timely(ops, n, end)
    requires n == 1 || Classify(Slow(p), p) != Punish
    ensures Run(ops, n, p, end).slots[i].score <= BENCH_SCORE
  {
    if n == 1 {
      EveryRunIsSound(ops, n, p, end);
    } else if ops != [] {
      var op, init := ops[|ops| - 1], ops[..|ops| - 1];
      NeverAbove(init, n, p, op.First(), i);
      NoneRaises(Run(init, n, p, op.First()), op, p, i, end);
    }
  }

  lemma NoneRaises(st: State, op: Op, p: Policy, i: nat, end: Time)
    requires st.Valid() && i < |st.slots| && OpOk(op, |st.slots|, 0, end) && p.Valid()
    requires Classify(Slow(p), p) != Punish && st.slots[i].score <= BENCH_SCORE
    ensures Perform(st, op, p).slots[i].score <= BENCH_SCORE
  {
    PerformIs(st, op, p);
    hide Perform, Moves, Pick;
  }

  /** Scores climb without bound exactly when there is an entry to move on to and some latency is punished:
      late verdicts go on counting against a benched entry. */
  lemma ScoresClimbExactly(n: nat, p: Policy)
    requires 0 < n && p.Valid()
    ensures (forall m: nat :: Scored(n, p, m)) <==> 2 <= n && p.punish < p.kill && p.reward + 1 < p.kill
  {
    if 2 <= n && Classify(Slow(p), p) == Punish {
      forall m: nat ensures Scored(n, p, m) {
        Climbs(n, p, m);
      }
    } else if Scored(n, p, 11) {
      var ops, end: Time, i: nat :|
        Timely(ops, n, end) && ByCallers(ops, n, p, end) && i < n && Run(ops, n, p, end).slots[i].score >= 11;
      NeverAbove(ops, n, p, end, i);
    }
  }
}
