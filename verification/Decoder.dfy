/** Silence from timestamps (discord-bot/audio/decode.go): while somebody is quiet no packets come, and
    how long that lasted has to be read off the 32-bit RTP timestamps (section 5.1 of RFC 3550) of the
    packets on either side. */
module Decoders {
  import opened CircularQueues
  import opened Downsamplers

  const SAMPLE_RATE: nat := 48000
  const CHANNELS: nat := 2
  const MAX_PACKET: nat := 5760
  const MAX_SILENCE: nat := 240000

  const WRAP: int := 0x1_0000_0000

  type uint32 = x: int | 0 <= x < WRAP

  /** A packet, and the interleaved stereo that its opus data gives, None when it cannot be decoded. */
  datatype Packet = Packet(timestamp: uint32, stereo: Option<seq<Sample>>) {
    predicate Ok() { stereo.Some? ==> |stereo.value| % CHANNELS == 0 && |stereo.value| <= MAX_PACKET * CHANNELS }
    function Length(): nat
      requires stereo.Some?
    {
      |stereo.value| / CHANNELS
    }
  }

  /** int32 division by two, toward zero. */
  function Average(l: Sample, r: Sample): Sample {
    if l + r >= 0 then (l + r) / 2 else -(-(l + r) / 2)
  }

  function Mono(stereo: seq<Sample>): (m: seq<Sample>)
    requires |stereo| % CHANNELS == 0
    ensures |m| == |stereo| / CHANNELS
  {
    seq<Sample>(|stereo| / CHANNELS, i requires 0 <= i < |stereo| / CHANNELS => Average(stereo[i * 2], stereo[i * 2 + 1]))
  }

  /** Mono is the mean of the two channels, rounded toward zero, sample by sample. */
  lemma MonoIsTheMean(stereo: seq<Sample>, i: nat)
    requires |stereo| % CHANNELS == 0 && 2 * i + 1 < |stereo|
    ensures i < |Mono(stereo)|
    ensures var sum, m := stereo[2 * i] as int + stereo[2 * i + 1] as int, Mono(stereo)[i] as int;
            if sum >= 0 then 0 <= sum - 2 * m <= 1 && m >= 0 else -1 <= sum - 2 * m <= 0 && m <= 0
  {
  }

  /** The pause before a packet of n samples, from a difference modulo the wrap. */
  function Pause(previous: uint32, timestamp: uint32, n: nat): nat {
    var gap := (timestamp - previous) % WRAP - n;
    if 0 < gap < MAX_SILENCE then gap else 0
  }

  class Decoder {
    const stereo: array<Sample>
    var last: uint32
    var started: bool

    ghost predicate Valid() {
      stereo.Length == MAX_PACKET * CHANNELS
    }

    constructor ()
      ensures Valid() && fresh(stereo) && !started
    {
      stereo := new Sample[MAX_PACKET * CHANNELS](_ => 0);
      last, started := 0, false;
    }

    /** The packet as mono and the silence before it; a packet that does not decode changes nothing. */
    method Decode(packet: Packet) returns (r: Option<(seq<Sample>, nat)>)
      requires Valid() && packet.Ok()
      modifies this, stereo
      ensures Valid() && (r.Some? <==> packet.stereo.Some?)
      ensures r == None ==> last == old(last) && started == old(started)
      ensures r.Some? ==>
                && r.value.0 == Mono(packet.stereo.value)
                && r.value.1 == (if old(started) then Pause(old(last), packet.timestamp, packet.Length()) else 0)
                && started && last == packet.timestamp
    {
      if packet.stereo == None {
        return None;
      }
      var decoded := packet.stereo.value;
      forall j | 0 <= j < |decoded| {
        stereo[j] := decoded[j];
      }
      var n := |decoded| / CHANNELS;

      var silence := 0;
      if started {
        var gap := (packet.timestamp - last) % WRAP - n;
        if gap > 0 && gap < MAX_SILENCE {
          silence := gap;
        }
      }
      started := true;
      last := packet.timestamp;

      var mono: seq<Sample> := [];
      for i := 0 to n
        invariant stereo[..|decoded|] == decoded
        invariant mono == Mono(decoded)[..i]
      {
        assert stereo[i * 2] == stereo[..|decoded|][i * 2] && stereo[i * 2 + 1] == stereo[..|decoded|][i * 2 + 1];
        mono := mono + [Average(stereo[i * CHANNELS], stereo[i * CHANNELS + 1])];
      }
      return Some((mono, silence));
    }
  }

  // ---- true time -----------------------------------------------------------------

  function Stamp(time: nat): uint32 {
    time % WRAP
  }

  /** A packet by its true time in samples and its length. */
  datatype Sent = Sent(time: nat, length: nat)

  /** The silence from the end of one packet to the start of the next, negative if they overlap. */
  function TruePause(a: Sent, b: Sent): int {
    b.time - a.time - a.length
  }

  /** What the decoder makes of the same two packets. */
  function Measured(a: Sent, b: Sent): nat {
    Pause(Stamp(a.time), Stamp(b.time), b.length)
  }

  /** What is made of a pause: one of five seconds or more is taken for none. */
  function Told(pause: int): nat {
    if 0 < pause < MAX_SILENCE then pause else 0
  }

  /** Less than half the wrap apart, in order or not. */
  predicate Near(a: Sent, b: Sent) {
    a.length <= MAX_PACKET && b.length <= MAX_PACKET && -(WRAP / 2) <= b.time - a.time < WRAP / 2
  }

  /** The 32-bit difference recovers the true pause, off by what the packet before it is longer than the
      packet after it. */
  lemma PauseIsOffByTheLengths(a: Sent, b: Sent)
    requires Near(a, b)
    ensures Measured(a, b) == Told(TruePause(a, b) + a.length - b.length)
  {
    assert (Stamp(b.time) - Stamp(a.time)) % WRAP == (b.time - a.time) % WRAP;
  }

  /** So a pause is measured right, whenever the next packet comes, exactly when it is as long as the last. */
  lemma MeasuredRightExactly(a: Sent, n: nat)
    requires a.length <= MAX_PACKET && n <= MAX_PACKET
    ensures (forall t: nat :: a.time + a.length <= t < a.time + WRAP / 2 ==>
               Measured(a, Sent(t, n)) == Told(TruePause(a, Sent(t, n))))
            <==> n == a.length
  {
    forall t: nat | a.time + a.length <= t < a.time + WRAP / 2
      ensures Measured(a, Sent(t, n)) == Told(TruePause(a, Sent(t, n)) + a.length - n)
    {
      PauseIsOffByTheLengths(a, Sent(t, n));
    }
    hide Measured;
    var t := a.time + a.length + MAX_PACKET + 1;
    assert Measured(a, Sent(t, n)) == MAX_PACKET + 1 + a.length - n;
  }

  // ---- the time a run takes ------------------------------------------------------

  /** In order, not overlapping, each less than half the wrap after the one before. */
  predicate Ordered(run: seq<Sent>) {
    && (forall i :: 0 <= i < |run| ==> run[i].length <= MAX_PACKET)
    && (forall i :: 0 < i < |run| ==> Near(run[i - 1], run[i]) && 0 <= TruePause(run[i - 1], run[i]))
  }

  /** The time from the start of the first packet to the end of the last. */
  function Passed(run: seq<Sent>): int
    requires run != []
  {
    run[|run| - 1].time + run[|run| - 1].length - run[0].time
  }

  function Min(a: nat, b: nat): nat {
    if a < b then a else b
  }

  /** Samples decoded and silence reported over a run, each pause cut off at cap. */
  function Accounted(run: seq<Sent>, cap: nat): nat {
    if run == [] then 0
    else
      var b := run[|run| - 1];
      var pause := if |run| == 1 then 0 else Measured(run[|run| - 2], b);
      Accounted(run[..|run| - 1], cap) + Min(pause, cap) + b.length
  }

  /** How much more than the true pause is accounted between two packets. */
  function Gained(a: Sent, b: Sent, cap: nat): int {
    Min(Told(TruePause(a, b) + a.length - b.length), cap) - TruePause(a, b)
  }

  function Drift(run: seq<Sent>, cap: nat): int {
    if |run| <= 1 then 0 else Drift(run[..|run| - 1], cap) + Gained(run[|run| - 2], run[|run| - 1], cap)
  }

  /** However often the 32-bit timestamps wrap, the account is the time that passed and what the pauses
      between neighbours gain or lose. */
  lemma {:induction false} TimeIsKeptButForDrift(run: seq<Sent>, cap: nat)
    requires run != [] && forall i :: 0 < i < |run| ==> Near(run[i - 1], run[i])
    ensures Accounted(run, cap) == Passed(run) + Drift(run, cap)
  {
    if |run| > 1 {
      TimeIsKeptButForDrift(run[..|run| - 1], cap);
      PauseIsOffByTheLengths(run[|run| - 2], run[|run| - 1]);
      hide Measured, Near, Told;
    } else {
      assert run[..0] == [];
    }
  }

  /** A pause is accounted as it was exactly when it is under the cap and between equally long packets, or
      there is none and the packets do not shrink, or it is at the cap and measured no shorter. */
  lemma GainsNothingExactly(a: Sent, b: Sent, cap: nat)
    requires 0 <= TruePause(a, b) && a.length <= MAX_PACKET && b.length <= MAX_PACKET
    ensures Gained(a, b, cap) == 0 <==>
            var pause := TruePause(a, b);
            if pause == cap then cap == 0 || cap <= pause + a.length - b.length < MAX_SILENCE
            else if pause == 0 then a.length <= b.length
            else pause < cap && pause < MAX_SILENCE && a.length == b.length
  {
  }

  /** Short pauses are never off by more than the packets on either side differ. */
  lemma GainIsBounded(a: Sent, b: Sent, cap: nat)
    requires 0 <= TruePause(a, b) <= cap && cap + MAX_PACKET < MAX_SILENCE && a.length <= MAX_PACKET && b.length <= MAX_PACKET
    ensures Gained(a, b, cap) <= if a.length > b.length then a.length - b.length else 0
    ensures -Gained(a, b, cap) <= if b.length > a.length then b.length - a.length else 0
  {
  }

  predicate AllEqual(lengths: seq<nat>) {
    forall i :: 0 < i < |lengths| ==> lengths[i - 1] == lengths[i]
  }

  function Lengths(run: seq<Sent>): (lengths: seq<nat>)
    ensures |lengths| == |run|
  {
    seq(|run|, i requires 0 <= i < |run| => run[i].length)
  }

  predicate PausesUpTo(run: seq<Sent>, cap: nat) {
    forall i :: 0 < i < |run| ==> TruePause(run[i - 1], run[i]) <= cap
  }

  lemma {:induction false} EqualPacketsDrift(run: seq<Sent>, cap: nat)
    requires Ordered(run) && AllEqual(Lengths(run)) && cap < MAX_SILENCE
    ensures Drift(run, cap) <= 0
    ensures Drift(run, cap) == 0 <==> PausesUpTo(run, cap)
  {
    if |run| > 1 {
      var init, a, b := run[..|run| - 1], run[|run| - 2], run[|run| - 1];
      EqualButTheLast(run);
      EqualPacketsDrift(init, cap);
      GainsNothingExactly(a, b, cap);
      hide Lengths, AllEqual, Ordered, TruePause;
      assert PausesUpTo(run, cap) <==> PausesUpTo(init, cap) && TruePause(a, b) <= cap;
    }
  }

  lemma EqualButTheLast(run: seq<Sent>)
    requires Ordered(run) && AllEqual(Lengths(run)) && |run| > 1
    ensures Ordered(run[..|run| - 1]) && AllEqual(Lengths(run[..|run| - 1]))
    ensures run[|run| - 2].length == run[|run| - 1].length && 0 <= TruePause(run[|run| - 2], run[|run| - 1])
  {
    var init := run[..|run| - 1];
    assert forall i :: 0 <= i < |init| ==> Lengths(init)[i] == Lengths(run)[i];
    assert Lengths(run)[|run| - 2] == Lengths(run)[|run| - 1];
  }

  /** Packets of one length: no time is gained, and none is lost exactly when every pause is at most the cap. */
  lemma EqualPacketsKeepTimeExactly(run: seq<Sent>, cap: nat)
    requires run != [] && Ordered(run) && AllEqual(Lengths(run)) && cap < MAX_SILENCE
    ensures Accounted(run, cap) <= Passed(run)
    ensures Accounted(run, cap) == Passed(run) <==> PausesUpTo(run, cap)
  {
    EqualPacketsDrift(run, cap);
    TimeIsKeptButForDrift(run, cap);
  }

  /** The next packet of a run whose account stays right up to it, all but the j-th, whose does not. */
  function Next(run: seq<Sent>, n: nat, j: nat, cap: nat): (next: Sent)
    requires run != []
  {
    var a := run[|run| - 1];
    Sent(a.time + a.length + (if |run| == j then MAX_PACKET else if a.length <= n then 0 else cap), n)
  }

  function Spaced(lengths: seq<nat>, j: nat, cap: nat): (run: seq<Sent>)
    ensures |run| == |lengths|
  {
    if |lengths| <= 1 then seq(|lengths|, i requires 0 <= i < |lengths| => Sent(0, lengths[i]))
    else
      var run := Spaced(lengths[..|lengths| - 1], j, cap);
      run + [Next(run, lengths[|lengths| - 1], j, cap)]
  }

  lemma NextGains(run: seq<Sent>, n: nat, j: nat, cap: nat)
    requires run != [] && n <= MAX_PACKET && run[|run| - 1].length <= MAX_PACKET
    requires |run| == j ==> run[|run| - 1].length != n
    requires MAX_PACKET < cap && cap + MAX_PACKET < MAX_SILENCE
    ensures var a, b := run[|run| - 1], Next(run, n, j, cap);
            Near(a, b) && 0 <= TruePause(a, b) <= cap && b.length == n && (Gained(a, b, cap) == 0 <==> |run| != j)
  {
    GainsNothingExactly(run[|run| - 1], Next(run, n, j, cap), cap);
  }

  lemma OneMoreSent(run: seq<Sent>, b: Sent, cap: nat)
    requires run != [] && Ordered(run) && PausesUpTo(run, cap)
    requires Near(run[|run| - 1], b) && 0 <= TruePause(run[|run| - 1], b) <= cap
    ensures Ordered(run + [b]) && PausesUpTo(run + [b], cap) && Lengths(run + [b]) == Lengths(run) + [b.length]
    ensures Drift(run + [b], cap) == Drift(run, cap) + Gained(run[|run| - 1], b, cap)
  {
    hide Gained, TruePause;
    assert (run + [b])[..|run|] == run;
  }

  predicate Short(lengths: seq<nat>) {
    forall i :: 0 <= i < |lengths| ==> lengths[i] <= MAX_PACKET
  }

  lemma OneSpaced(lengths: seq<nat>, j: nat, cap: nat)
    requires Short(lengths) && |lengths| <= 1
    ensures var run := Spaced(lengths, j, cap);
            Ordered(run) && PausesUpTo(run, cap) && Lengths(run) == lengths && Drift(run, cap) == 0
  {
  }

  lemma {:induction false} SpacedDrifts(lengths: seq<nat>, j: nat, cap: nat)
    requires Short(lengths) && 0 < j && MAX_PACKET < cap && cap + MAX_PACKET < MAX_SILENCE
    requires j < |lengths| ==> lengths[j - 1] != lengths[j]
    ensures var run := Spaced(lengths, j, cap);
            && Ordered(run) && PausesUpTo(run, cap) && Lengths(run) == lengths
            && (Drift(run, cap) == 0 <==> |lengths| <= j)
  {
    hide Ordered, PausesUpTo, Drift, Near, Gained, TruePause, Next;
    if |lengths| <= 1 {
      OneSpaced(lengths, j, cap);
    } else {
      var init, n := lengths[..|lengths| - 1], lengths[|lengths| - 1];
      SpacedDrifts(init, j, cap);
      var run := Spaced(init, j, cap);
      assert run[|run| - 1].length == Lengths(run)[|init| - 1] == init[|init| - 1];
      hide Lengths, Spaced;
      NextGains(run, n, j, cap);
      OneMoreSent(run, Next(run, n, j, cap), cap);
      assert init + [n] == lengths;
      assert Spaced(lengths, j, cap) == run + [Next(run, n, j, cap)] by { SpacedOneMore(lengths, j, cap); }
    }
  }

  lemma SpacedOneMore(lengths: seq<nat>, j: nat, cap: nat)
    requires |lengths| > 1
    ensures var run := Spaced(lengths[..|lengths| - 1], j, cap);
            Spaced(lengths, j, cap) == run + [Next(run, lengths[|lengths| - 1], j, cap)]
  {
  }

  /** For packets of given lengths the account is the time that passed, whatever the pauses up to the cap,
      exactly when the lengths are all the same. */
  lemma EqualPacketsAloneKeepTime(lengths: seq<nat>, cap: nat)
    requires lengths != [] && Short(lengths)
    requires MAX_PACKET < cap && cap + MAX_PACKET < MAX_SILENCE
    ensures (forall run :: Lengths(run) == lengths && Ordered(run) && PausesUpTo(run, cap) ==> Accounted(run, cap) == Passed(run))
            <==> AllEqual(lengths)
  {
    if AllEqual(lengths) {
      forall run | Lengths(run) == lengths && Ordered(run) && PausesUpTo(run, cap)
        ensures Accounted(run, cap) == Passed(run)
      {
        EqualPacketsKeepTimeExactly(run, cap);
      }
    } else {
      var j :| 0 < j < |lengths| && lengths[j - 1] != lengths[j];
      SpacedDrifts(lengths, j, cap);
      TimeIsKeptButForDrift(Spaced(lengths, j, cap), cap);
    }
  }

  /** Two packets back to back, the second shorter: 6240 samples passed and 11520 are accounted. */
  lemma ShorterPacketsGainTime(cap: nat)
    requires MAX_PACKET <= cap
    ensures var run := [Sent(0, 5760), Sent(5760, 480)];
            Ordered(run) && Passed(run) == 6240 && Accounted(run, cap) == 11520
  {
    var run := [Sent(0, 5760), Sent(5760, 480)];
    TimeIsKeptButForDrift(run, cap);
    assert run[..1] == [Sent(0, 5760)];
    assert Drift(run[..1], cap) == 0;
    assert Gained(run[0], run[1], cap) == 5280;
  }
}
