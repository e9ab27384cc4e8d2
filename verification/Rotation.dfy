/** A rotation over interchangeable endpoints: scores, benching, parole and the
    longest-benched fallback (shared/rotation.go). */
module Rotations {
  import opened CircularQueues

  /** Nanoseconds since the zero time, the bench time of a slot never benched. */
  type Time = nat

  const BENCH_SCORE: int := 10

  datatype Policy = Policy(reward: int, punish: int, kill: int, parole: int) {
    predicate Valid() {
      0 < parole && reward <= punish <= kill
    }
  }

  datatype Slot = Slot(score: int, benched: Time)

  const FRESH := Slot(0, 0)

  // ---- the rotation as a value ---------------------------------------------------

  datatype State = State(selected: nat, slots: seq<Slot>) {
    predicate Valid() {
      selected < |slots|
    }

    /** The slot that lies i places after the selected one, wrapping around. */
    function At(i: nat): (index: nat)
      requires Valid() && i <= |slots|
      ensures index < |slots|
    {
      Around(selected + i, |slots|)
    }
  }

  datatype Verdict = Kill | Reward | Punish | Neutral

  function Classify(latency: int, p: Policy): Verdict {
    if latency >= p.kill then Kill
    else if latency <= p.reward then Reward
    else if latency >= p.punish then Punish
    else Neutral
  }

  function Rescored(score: int, v: Verdict): int {
    match v
    case Kill => BENCH_SCORE
    case Reward => if score - 1 < 0 then 0 else score - 1
    case Punish => score + 2
    case Neutral => score
  }

  /** Not benched, or benched for at least the parole. */
  predicate Eligible(slot: Slot, now: Time, parole: int) {
    slot.score < BENCH_SCORE || now - slot.benched >= parole
  }

  /** How far round the first eligible slot lies at distance i or more, n + 1 when there is none. */
  function Scan(st: State, now: Time, parole: int, i: nat): (r: nat)
    requires st.Valid() && 1 <= i <= |st.slots| + 1
    ensures i <= r <= |st.slots| + 1
    ensures r <= |st.slots| ==> Eligible(st.slots[st.At(r)], now, parole)
    ensures forall j :: i <= j < r ==> !Eligible(st.slots[st.At(j)], now, parole)
    decreases |st.slots| + 1 - i
  {
    if i == |st.slots| + 1 || Eligible(st.slots[st.At(i)], now, parole) then i
    else Scan(st, now, parole, i + 1)
  }

  /** The slot benched longest ago, the first of them on a tie. */
  function Stalest(slots: seq<Slot>): (r: nat)
    requires slots != []
    ensures r < |slots|
    ensures forall j :: 0 <= j < |slots| ==> slots[r].benched <= slots[j].benched
    ensures forall j :: 0 <= j < r ==> slots[r].benched < slots[j].benched
  {
    if |slots| == 1 then 0
    else
      var best := Stalest(slots[..|slots| - 1]);
      if slots[|slots| - 1].benched < slots[best].benched then |slots| - 1 else best
  }

  /** When the scan comes back empty it has looked at every slot. */
  lemma NoneEligible(st: State, now: Time, parole: int)
    requires st.Valid() && Scan(st, now, parole, 1) == |st.slots| + 1
    ensures forall k :: 0 <= k < |st.slots| ==> !Eligible(st.slots[k], now, parole)
  {
    forall k | 0 <= k < |st.slots|
      ensures !Eligible(st.slots[k], now, parole)
    {
      assert k == st.At(if st.selected < k then k - st.selected else k + |st.slots| - st.selected);
    }
  }

  function Pick(st: State, now: Time, parole: int): (r: nat)
    requires st.Valid()
    ensures r < |st.slots|
  {
    var i := Scan(st, now, parole, 1);
    if i <= |st.slots| then st.At(i) else Stalest(st.slots)
  }

  /** The picked slot is selected, judged afresh if it was benched. */
  function Next(st: State, now: Time, parole: int): (r: State)
    requires st.Valid()
    ensures r.Valid() && |r.slots| == |st.slots|
  {
    var pick := Pick(st, now, parole);
    var slot := st.slots[pick];
    State(pick, st.slots[pick := if slot.score >= BENCH_SCORE then slot.(score := 0) else slot])
  }

  /** Benches a slot at one clock reading; if it was selected, moves off it at the next reading. */
  function Failed(st: State, index: nat, benched: Time, now: Time, parole: int): (r: State)
    requires st.Valid() && index < |st.slots|
    ensures r.Valid() && |r.slots| == |st.slots|
  {
    var after := st.(slots := st.slots[index := Slot(BENCH_SCORE, benched)]);
    if index == st.selected then Next(after, now, parole) else after
  }

  /** The state after a verdict, and whether the verdict benched the slot. */
  function Judged(st: State, index: nat, v: Verdict, benched: Time, now: Time, parole: int): (r: (State, bool))
    requires st.Valid() && index < |st.slots|
    ensures r.0.Valid() && |r.0.slots| == |st.slots|
  {
    var score := Rescored(st.slots[index].score, v);
    if score < BENCH_SCORE then
      (st.(slots := st.slots[index := st.slots[index].(score := score)]), false)
    else
      var after := st.(slots := st.slots[index := Slot(score, benched)]);
      (if index == st.selected then Next(after, now, parole) else after, true)
  }

  // ---- the rotation itself -------------------------------------------------------

  datatype Entry<T> = Entry(value: T, index: nat)

  class Rotation<T> {
    const values: seq<T>
    const policy: Policy
    var selected: nat
    const slots: array<Slot>

    ghost predicate Valid()
      reads this
    {
      policy.Valid() && selected < slots.Length == |values|
    }

    ghost function View(): (s: State)
      requires Valid()
      reads this, slots
      ensures s.Valid() && |s.slots| == |values|
    {
      State(selected, slots[..])
    }

    constructor (items: seq<T>, policy: Policy)
      requires items != [] && policy.Valid()
      ensures Valid() && fresh(slots) && values == items && this.policy == policy
      ensures View() == State(0, seq(|items|, _ => FRESH))
    {
      this.values, this.policy, this.selected := items, policy, 0;
      this.slots := new Slot[|items|](_ => FRESH);
    }

    /** NewRotation: no items, no parole or a disordered policy is an error. */
    static method New(items: seq<T>, policy: Policy) returns (r: Option<Rotation<T>>)
      ensures r.Some? <==> items != [] && policy.Valid()
      ensures r.Some? ==> fresh(r.value) && r.value.Valid() && fresh(r.value.slots)
                          && r.value.values == items && r.value.policy == policy
                          && r.value.View() == State(0, seq(|items|, _ => FRESH))
    {
      if |items| == 0 || policy.parole <= 0 || policy.reward > policy.punish || policy.punish > policy.kill {
        return None;
      }
      var rotation := new Rotation(items, policy);
      return Some(rotation);
    }

    method Current() returns (e: Entry<T>)
      requires Valid()
      ensures e == Entry(values[View().selected], View().selected)
    {
      e := Entry(values[selected], selected);
    }

    /** benched and now are the two clock readings a benching verdict takes. */
    method Judge(entry: Entry<T>, latency: int, benched: Time, now: Time) returns (didBench: bool)
      requires Valid() && entry.index < |values|
      modifies this, slots
      ensures Valid()
      ensures (View(), didBench) == Judged(old(View()), entry.index, Classify(latency, policy), benched, now, policy.parole)
    {
      var judged := slots[entry.index];
      if latency >= policy.kill {
        judged := judged.(score := BENCH_SCORE);
      } else if latency <= policy.reward {
        judged := judged.(score := if judged.score - 1 < 0 then 0 else judged.score - 1);
      } else if latency >= policy.punish {
        judged := judged.(score := judged.score + 2);
      }
      slots[entry.index] := judged;

      if judged.score < BENCH_SCORE {
        return false;
      }
      slots[entry.index] := judged.(benched := benched);
      assert slots[..] == old(slots[..])[entry.index := Slot(judged.score, benched)];
      if entry.index == selected {
        MoveOn(now);
      }
      return true;
    }

    method Fail(entry: Entry<T>, benched: Time, now: Time)
      requires Valid() && entry.index < |values|
      modifies this, slots
      ensures Valid()
      ensures View() == Failed(old(View()), entry.index, benched, now, policy.parole)
    {
      slots[entry.index] := Slot(BENCH_SCORE, benched);
      if entry.index == selected {
        MoveOn(now);
      }
    }

    method Rotate(now: Time)
      requires Valid()
      modifies this, slots
      ensures Valid()
      ensures View() == Next(old(View()), now, policy.parole)
    {
      MoveOn(now);
    }

    method Len() returns (n: nat)
      requires Valid()
      ensures n == |values|
    {
      n := slots.Length;
    }

    /** The fallback of next, for when the scan finds nobody eligible. */
    method LongestBenched() returns (stalest: nat)
      requires Valid()
      ensures stalest == Stalest(slots[..])
    {
      stalest := 0;
      for j := 0 to slots.Length
        invariant stalest < slots.Length
        invariant j == 0 ==> stalest == 0
        invariant j > 0 ==> stalest == Stalest(slots[..j])
      {
        assert j > 0 ==> slots[..j + 1][..j] == slots[..j];
        if slots[j].benched < slots[stalest].benched {
          stalest := j;
        }
      }
      assert slots[..slots.Length] == slots[..];
    }

    /** next: the scan, then the fallback. */
    method MoveOn(now: Time)
      requires Valid()
      modifies this, slots
      ensures Valid()
      ensures View() == Next(old(View()), now, policy.parole)
    {
      hide Stalest;
      var length := slots.Length;
      var i := 1;
      while i <= length
        invariant 1 <= i <= length + 1
        invariant slots[..] == old(slots[..]) && selected == old(selected)
        invariant Scan(View(), now, policy.parole, 1) == Scan(View(), now, policy.parole, i)
      {
        AroundIsMod(selected + i, length);
        var index := (selected + i) % length;
        if slots[index].score >= BENCH_SCORE {
          if now - slots[index].benched < policy.parole {
            i := i + 1;
            continue;
          }
          slots[index] := slots[index].(score := 0);
        }
        selected := index;
        return;
      }

      NoneEligible(View(), now, policy.parole);
      var stalest := LongestBenched();
      slots[stalest] := slots[stalest].(score := 0);
      selected := stalest;
    }
  }
}
