/** One speaker, packet by packet (ReceiveOpusFrame in discord-bot/audio/listen.go): decode, fill
    the pause, downsample, keep the segment, feed the detector, and debounce the wakes. */
module Listeners {
  import opened CircularQueues
  import opened Rotations
  import opened Downsamplers
  import opened Detectors
  import opened Decoders

  const MAX_PAUSE_FILL: nat := 61440
  const SECOND: nat := 1_000_000_000

  /** One packet at 16 kHz: when, the pause before it in time and in samples, and its audio. */
  datatype Segment = Segment(at: Time, pause: Time, quiet: seq<Sample>, pcm: seq<Sample>)

  /** Samples of silence as a duration. */
  function Duration(silence: nat): Time {
    silence * SECOND / SAMPLE_RATE
  }

  /** The segments not older than cutoff; they are kept oldest first, so only the front goes. */
  function Trimmed(segments: seq<Segment>, cutoff: int): (r: seq<Segment>)
  {
    if segments != [] && segments[0].at < cutoff then Trimmed(segments[1..], cutoff) else segments
  }

  predicate OldestFirst(segments: seq<Segment>) {
    forall i, j :: 0 <= i < j < |segments| ==> segments[i].at <= segments[j].at
  }

  /** Trimming keeps exactly the segments at or after the cutoff. */
  lemma {:induction false} TrimmedKeepsTheRecent(segments: seq<Segment>, cutoff: int)
    requires OldestFirst(segments)
    ensures var r := Trimmed(segments, cutoff);
            && OldestFirst(r) && |r| <= |segments| && r == segments[|segments| - |r|..]
            && (forall s :: s in r ==> cutoff <= s.at)
            && (forall s :: s in segments[..|segments| - |r|] ==> s.at < cutoff)
  {
    if segments != [] && segments[0].at < cutoff {
      TrimmedKeepsTheRecent(segments[1..], cutoff);
      var r := Trimmed(segments, cutoff);
      hide Trimmed, OldestFirst;
      assert segments[..|segments| - |r|] == [segments[0]] + segments[1..][..|segments| - 1 - |r|];
    } else {
      assert forall s :: s in segments ==> cutoff <= s.at;
    }
  }

  lemma {:induction false} TrimmedFurther(segments: seq<Segment>, s: Segment, cutoff: int, later: int)
    requires cutoff <= later
    ensures Trimmed(Trimmed(segments, cutoff) + [s], later) == Trimmed(segments + [s], later)
  {
    if segments != [] && segments[0].at < cutoff {
      TrimmedFurther(segments[1..], s, cutoff, later);
      assert (segments + [s])[1..] == segments[1..] + [s];
    }
  }

  /** What is held of everything stored: keep worth of it, up to the last packet. */
  function Held(stored: seq<Segment>, keep: Time): seq<Segment> {
    if stored == [] then [] else Trimmed(stored, stored[|stored| - 1].at - keep)
  }

  /** A stored segment is still held exactly when it is within keep of the speaker's last packet. */
  lemma HeldExactly(stored: seq<Segment>, keep: Time, s: Segment)
    requires OldestFirst(stored) && s in stored
    ensures s in Held(stored, keep) <==> stored[|stored| - 1].at - keep <= s.at
  {
    var cutoff := stored[|stored| - 1].at - keep;
    TrimmedKeepsTheRecent(stored, cutoff);
    var r := Trimmed(stored, cutoff);
    assert stored == stored[..|stored| - |r|] + r;
  }

  /** What a listener is set to. */
  datatype Config = Config(threshold: real, debounce: Time, keep: Time)

  class Speaker {
    const decoder: Decoder
    const downsampler: Downsampler
    const detector: Detector
    const config: Config
    var segments: seq<Segment>
    var lastWake: Time
    var lastHeard: Time
    // every segment since the first packet, and when this speaker's wakes were accepted
    ghost var stored: seq<Segment>
    ghost var woken: seq<Time>

    ghost function Repr(): set<object>
      reads {}
    {
      {this, decoder, decoder.stereo, downsampler, downsampler.history, detector, detector.lookback}
    }

    /** Accepted wakes are at least the debounce apart. */
    ghost predicate WakesOk()
      reads this
    {
      && lastWake == (if woken == [] then 0 else woken[|woken| - 1])
      && lastWake <= lastHeard
      && (forall i, j :: 0 <= i < j < |woken| ==> woken[j] - woken[i] >= config.debounce)
      && (forall i :: 0 <= i < |woken| ==> woken[i] <= lastWake)
    }

    /** What is held is everything stored but the segments too old when the last packet came. */
    ghost predicate SegmentsOk()
      reads this
    {
      && OldestFirst(stored) && (stored != [] ==> stored[|stored| - 1].at == lastHeard)
      && segments == Held(stored, config.keep)
    }

    /** The detector has heard exactly the downsampled form of what the downsampler has heard. */
    ghost predicate Valid()
      reads Repr()
    {
      && decoder.Valid() && downsampler.Valid() && detector.Valid()
      && detector.lookback != downsampler.history
      && decoder.stereo != downsampler.history && decoder.stereo != detector.lookback
      && detector.heard == Downsampled(downsampler.taps, downsampler.heard)
      && SegmentsOk() && WakesOk()
    }

    constructor (model: Model, taps: seq<real>, config: Config)
      requires model.Shaped() && |taps| == TAPS
      ensures Valid() && fresh(Repr()) && detector.model == model && downsampler.taps == taps && this.config == config
      ensures downsampler.heard == [] && stored == [] && woken == [] && !decoder.started && lastHeard == 0
    {
      this.config := config;
      decoder := new Decoder();
      downsampler := new Downsampler(taps);
      detector := new Detector(model);
      segments, stored, lastWake, lastHeard, woken := [], [], 0, 0, [];
    }

    /** The pause before a packet as this speaker's decoder measures it. */
    ghost function Silence(packet: Packet): nat
      requires packet.stereo.Some?
      reads decoder
    {
      if decoder.started then Pause(decoder.last, packet.timestamp, packet.Length()) else 0
    }

    /** The signal with the pause before a packet filled in. */
    ghost function WithPause(packet: Packet): seq<Sample>
      requires packet.stereo.Some?
      reads decoder, downsampler
    {
      downsampler.heard + Zeros(Min(Silence(packet), MAX_PAUSE_FILL))
    }

    /** now is the clock reading taken once the packet is decoded, canSend whether the wakes channel has
        room. A wake without room is dropped, but still counts against the debounce. */
    method Receive(packet: Packet, now: Time, canSend: bool)
      returns (wake: bool, ghost quiet: seq<Sample>, ghost speech: seq<Sample>)
      requires Valid() && packet.Ok() && lastHeard <= now
      modifies Repr()
      ensures Valid()
      // a packet that does not decode leaves the speaker as it was
      ensures packet.stereo == None ==>
                && !wake && segments == old(segments) && stored == old(stored) && woken == old(woken) && lastHeard == old(lastHeard)
                && downsampler.heard == old(downsampler.heard)
                && decoder.last == old(decoder.last) && decoder.started == old(decoder.started)
      ensures packet.stereo.Some? ==> decoder.started && decoder.last == packet.timestamp && lastHeard == now
      // the signal gains the pause, at most 1.28 s of it, then the packet
      ensures packet.stereo.Some? ==>
                downsampler.heard == old(WithPause(packet)) + Mono(packet.stereo.value)
      // the new segment holds what each adds at 16 kHz, and only segments that are too old go
      ensures packet.stereo.Some? ==>
                && Downsampled(downsampler.taps, old(WithPause(packet))) == Downsampled(downsampler.taps, old(downsampler.heard)) + quiet
                && Downsampled(downsampler.taps, downsampler.heard) == Downsampled(downsampler.taps, old(WithPause(packet))) + speech
                && stored == old(stored) + [Segment(now, Duration(old(Silence(packet))), quiet, speech)]
                && segments == Held(stored, config.keep)
      // a wake is the whole signal's score reaching the threshold, not within debounce of the last one
      ensures packet.stereo.Some? && detector.model.Shaped() ==>
                var hot := WholeScore(detector.model, Downsampled(downsampler.taps, downsampler.heard)) >= config.threshold;
                && woken == old(woken) + (if hot && now - old(lastWake) >= config.debounce then [now] else [])
                && (wake <==> canSend && hot && now - old(lastWake) >= config.debounce)
    {
      hide Mono, Pause, Downsampled, Zeros, Held, OldestFirst, WholeScore, ScoreAfter, Duration, Min, HoldsOf;
      quiet, speech := [], [];
      var taken := Take(packet);
      if taken == None {
        return false, quiet, speech;
      }
      var (low, high, pause) := taken.value;
      quiet, speech := low, high;
      Keep(Segment(now, Duration(pause), low, high));
      var score := Listen(low, high);
      wake := Debounce(score, now, canSend);
    }

    /** The detector is fed the pause before the packet. */
    method Listen(quiet: seq<Sample>, speech: seq<Sample>) returns (score: real)
      requires detector.Valid()
      modifies detector, detector.lookback
      ensures detector.Valid() && detector.heard == old(detector.heard) + quiet + speech
      ensures detector.model.Shaped() && score == WholeScore(detector.model, detector.heard)
    {
      hide HoldsOf, WholeScore;
      var _ := detector.Feed(quiet);
      score := detector.Feed(speech);
    }

    /** Decodes and downsamples: the pause and the packet at 16 kHz, and the pause in samples. */
    method Take(packet: Packet) returns (r: Option<(seq<Sample>, seq<Sample>, nat)>)
      requires decoder.Valid() && downsampler.Valid() && packet.Ok() && decoder.stereo != downsampler.history
      modifies decoder, decoder.stereo, downsampler, downsampler.history
      ensures decoder.Valid() && downsampler.Valid() && (r.Some? <==> packet.stereo.Some?)
      ensures r == None ==> downsampler.heard == old(downsampler.heard)
                            && decoder.last == old(decoder.last) && decoder.started == old(decoder.started)
      ensures r.Some? ==>
                && decoder.started && decoder.last == packet.timestamp && r.value.2 == old(Silence(packet))
                && downsampler.heard == old(WithPause(packet)) + Mono(packet.stereo.value)
                && Downsampled(downsampler.taps, old(WithPause(packet))) == Downsampled(downsampler.taps, old(downsampler.heard)) + r.value.0
                && Downsampled(downsampler.taps, downsampler.heard) == Downsampled(downsampler.taps, old(WithPause(packet))) + r.value.1
    {
      hide Mono, Pause, Downsampled, Zeros, Min;
      var decoded := decoder.Decode(packet);
      if decoded == None {
        return None;
      }
      var (pcm, pause) := decoded.value;
      var quiet := downsampler.Downsample(Zeros(Min(pause, MAX_PAUSE_FILL)));
      var speech := downsampler.Downsample(pcm);
      return Some((quiet, speech, pause));
    }

    /** Appends a segment and lets go of those too old. */
    method Keep(s: Segment)
      requires SegmentsOk() && lastHeard <= s.at
      modifies this`segments, this`stored, this`lastHeard
      ensures SegmentsOk() && lastHeard == s.at && stored == old(stored) + [s]
    {
      if stored != [] {
        TrimmedFurther(stored, s, lastHeard - config.keep, s.at - config.keep);
      }
      lastHeard := s.at;
      segments := segments + [s];
      stored := stored + [s];
      while |segments| > 0 && segments[0].at < s.at - config.keep
        invariant Trimmed(segments, s.at - config.keep) == Trimmed(stored, s.at - config.keep)
        invariant lastHeard == s.at && stored == old(stored) + [s]
        decreases |segments|
      {
        segments := segments[1..];
      }
    }

    method Debounce(score: real, now: Time, canSend: bool) returns (wake: bool)
      requires WakesOk() && lastHeard == now
      modifies this`lastWake, this`woken
      ensures WakesOk()
      ensures var due := score >= config.threshold && now - old(lastWake) >= config.debounce;
              woken == old(woken) + (if due then [now] else []) && (wake <==> canSend && due)
    {
      if score >= config.threshold {
        if now - lastWake >= config.debounce {
          lastWake := now;
          woken := woken + [now];
          return canSend;
        }
      }
      return false;
    }
  }

  // ---- a whole run of packets ----------------------------------------------------

  /** A packet sent at a true time, and the clock when it arrived. */
  datatype Arrival = Arrival(sent: Sent, stereo: seq<Sample>, now: Time) {
    predicate Ok() { |stereo| == CHANNELS * sent.length && sent.length <= MAX_PACKET }
  }

  predicate Plays(arrivals: seq<Arrival>) {
    && (forall i :: 0 <= i < |arrivals| ==> arrivals[i].Ok())
    && (forall i, j :: 0 <= i < j < |arrivals| ==> arrivals[i].now <= arrivals[j].now)
  }

  function Times(arrivals: seq<Arrival>): (run: seq<Sent>)
    ensures |run| == |arrivals|
  {
    seq(|arrivals|, i requires 0 <= i < |arrivals| => arrivals[i].sent)
  }

  /** The pause that is measured before a packet that follows others. */
  function PauseAfter(before: seq<Arrival>, a: Arrival): nat {
    if before == [] then 0 else Measured(before[|before| - 1].sent, a.sent)
  }

  /** The signal that arrivals make up, pauses filled in up to 1.28 s. */
  function Signal(arrivals: seq<Arrival>): seq<Sample>
    requires Plays(arrivals)
    decreases |arrivals|, 0
  {
    if arrivals == [] then []
    else
      var before, a := arrivals[..|arrivals| - 1], arrivals[|arrivals| - 1];
      Paused(before, a) + Mono(a.stereo)
  }

  /** The signal up to a packet, with the pause before it. */
  function Paused(before: seq<Arrival>, a: Arrival): seq<Sample>
    requires Plays(before)
    decreases |before|, 1
  {
    Signal(before) + Zeros(Min(PauseAfter(before, a), MAX_PAUSE_FILL))
  }

  /** A packet's segment: what its pause and its audio add to the downsampled signal. */
  function SegmentAfter(taps: seq<real>, before: seq<Arrival>, a: Arrival): Segment
    requires Plays(before) && a.Ok()
  {
    var paused := Paused(before, a);
    DownsampledPrefix(taps, Signal(before), Zeros(Min(PauseAfter(before, a), MAX_PAUSE_FILL)));
    DownsampledPrefix(taps, paused, Mono(a.stereo));
    Segment(a.now, Duration(PauseAfter(before, a)),
            Downsampled(taps, paused)[Thirds(|Signal(before)|)..],
            Downsampled(taps, paused + Mono(a.stereo))[Thirds(|paused|)..])
  }

  function Recording(taps: seq<real>, arrivals: seq<Arrival>): (segments: seq<Segment>)
    requires Plays(arrivals)
    ensures |segments| == |arrivals|
  {
    if arrivals == [] then []
    else
      var before := arrivals[..|arrivals| - 1];
      Recording(taps, before) + [SegmentAfter(taps, before, arrivals[|arrivals| - 1])]
  }

  lemma {:induction false} RecordingAt(taps: seq<real>, arrivals: seq<Arrival>, i: nat)
    requires Plays(arrivals) && i < |arrivals|
    ensures Recording(taps, arrivals)[i] == SegmentAfter(taps, arrivals[..i], arrivals[i])
  {
    hide SegmentAfter;
    if i < |arrivals| - 1 {
      RecordingAt(taps, arrivals[..|arrivals| - 1], i);
      assert arrivals[..|arrivals| - 1][..i] == arrivals[..i];
    }
  }

  lemma SignalGrows(before: seq<Arrival>, a: Arrival)
    requires Plays(before) && Plays(before + [a]) && a.Ok()
    ensures Signal(before + [a]) == Paused(before, a) + Mono(a.stereo)
    ensures |Signal(before + [a])| == |Signal(before)| + Min(PauseAfter(before, a), MAX_PAUSE_FILL) + a.sent.length
  {
    assert (before + [a])[..|before|] == before;
    hide PauseAfter;
  }

  lemma AccountGrows(before: seq<Arrival>, a: Arrival)
    ensures Accounted(Times(before + [a]), MAX_PAUSE_FILL)
            == Accounted(Times(before), MAX_PAUSE_FILL) + Min(PauseAfter(before, a), MAX_PAUSE_FILL) + a.sent.length
  {
    assert Times(before + [a])[..|before|] == Times(before);
    hide Pause, Stamp;
  }

  lemma {:induction false} SignalIsAccounted(arrivals: seq<Arrival>)
    requires Plays(arrivals)
    ensures |Signal(arrivals)| == Accounted(Times(arrivals), MAX_PAUSE_FILL)
  {
    if arrivals != [] {
      var before, a := arrivals[..|arrivals| - 1], arrivals[|arrivals| - 1];
      PlaysSoFar(arrivals, |before|);
      SignalIsAccounted(before);
      assert before + [a] == arrivals;
      hide *;
      SignalGrows(before, a);
      AccountGrows(before, a);
    }
  }

  /** Two packets are kept apart by what is measured of the pause between them, up to 1.28 s. That is the
      pause itself, up to 1.28 s, exactly when the packets are equally long and it is under five seconds,
      or there is none and they do not shrink, or it is measured from 1.28 s to under five seconds. */
  lemma {:induction false} KeptApartExactly(before: seq<Arrival>, a: Arrival)
    requires Plays(before) && before != [] && a.Ok() && Near(before[|before| - 1].sent, a.sent)
    requires 0 <= TruePause(before[|before| - 1].sent, a.sent)
    ensures var b := before[|before| - 1].sent;
            var pause, measured := TruePause(b, a.sent), TruePause(b, a.sent) + b.length - a.sent.length;
            && Paused(before, a) == Signal(before) + Zeros(Min(Told(measured), MAX_PAUSE_FILL))
            && (Paused(before, a) != Signal(before) <==> 0 < measured < MAX_SILENCE)
            && (Paused(before, a) == Signal(before) + Zeros(Min(pause, MAX_PAUSE_FILL)) <==>
                  if pause == 0 then b.length <= a.sent.length
                  else if pause < MAX_PAUSE_FILL then b.length == a.sent.length
                  else MAX_PAUSE_FILL <= measured < MAX_SILENCE)
  {
    var b := before[|before| - 1].sent;
    PauseIsOffByTheLengths(b, a.sent);
    hide Measured, Signal;
    var told, pause := Min(Told(TruePause(b, a.sent) + b.length - a.sent.length), MAX_PAUSE_FILL), TruePause(b, a.sent);
    ZerosTell(Signal(before), told, Min(pause, MAX_PAUSE_FILL));
    ZerosTell(Signal(before), told, 0);
    assert Signal(before) + Zeros(0) == Signal(before);
  }

  lemma ZerosTell(x: seq<Sample>, m: nat, n: nat)
    ensures x + Zeros(m) == x + Zeros(n) <==> m == n
  {
    assert |x + Zeros(m)| == |x| + m && |x + Zeros(n)| == |x| + n;
  }

  /** The 16 kHz audio that reaches the detector numbers the ceiling of a third of the time that passed and
      of what the pauses between packets gain or lose. */
  lemma SignalLength(taps: seq<real>, arrivals: seq<Arrival>)
    requires Plays(arrivals) && arrivals != [] && Ordered(Times(arrivals))
    ensures |Signal(arrivals)| == Passed(Times(arrivals)) + Drift(Times(arrivals), MAX_PAUSE_FILL)
    ensures |Downsampled(taps, Signal(arrivals))| == (Passed(Times(arrivals)) + Drift(Times(arrivals), MAX_PAUSE_FILL) + 2) / 3
  {
    SignalIsAccounted(arrivals);
    TimeIsKeptButForDrift(Times(arrivals), MAX_PAUSE_FILL);
    hide Signal, Accounted, Drift, Passed, Times;
  }

  /** So for packets of one length it is the time that passed exactly when no pause is over 1.28 s. */
  lemma EqualPacketsSignal(arrivals: seq<Arrival>)
    requires Plays(arrivals) && arrivals != [] && Ordered(Times(arrivals)) && AllEqual(Lengths(Times(arrivals)))
    ensures |Signal(arrivals)| <= Passed(Times(arrivals))
    ensures |Signal(arrivals)| == Passed(Times(arrivals)) <==> PausesUpTo(Times(arrivals), MAX_PAUSE_FILL)
  {
    SignalIsAccounted(arrivals);
    EqualPacketsKeepTimeExactly(Times(arrivals), MAX_PAUSE_FILL);
    hide Signal, Accounted, Passed, Times, PausesUpTo;
  }

  /** A speaker who has heard arrivals and nothing else. */
  ghost predicate HasHeard(speaker: Speaker, arrivals: seq<Arrival>)
    requires Plays(arrivals)
    reads speaker.Repr()
  {
    && speaker.Valid()
    && speaker.stored == Recording(speaker.downsampler.taps, arrivals)
    && speaker.downsampler.heard == Signal(arrivals)
    && (speaker.decoder.started <==> arrivals != [])
    && speaker.lastHeard == (if arrivals == [] then 0 else arrivals[|arrivals| - 1].now)
    && (arrivals != [] ==> speaker.decoder.last == Stamp(arrivals[|arrivals| - 1].sent.time))
  }

  method HearOne(speaker: Speaker, ghost before: seq<Arrival>, a: Arrival)
    requires Plays(before) && Plays(before + [a]) && a.Ok() && HasHeard(speaker, before)
    requires before != [] ==> before[|before| - 1].now <= a.now
    modifies speaker.Repr()
    ensures HasHeard(speaker, before + [a])
  {
    hide Mono, Pause, Downsampled, Held, OldestFirst, WholeScore, Duration, Min, Stamp, Signal, Recording, Zeros;
    var packet := Packet(Stamp(a.sent.time), Some(a.stereo));
    ghost var taps := speaker.downsampler.taps;
    ghost var _, quiet, speech := speaker.Receive(packet, a.now, true);
    Recorded(taps, before, a, quiet, speech);
  }

  /** End to end: packets stamped with the low 32 bits of their true times leave a speaker with their
      recording stored and the detector with their signal. */
  method HearAll(model: Model, taps: seq<real>, config: Config, arrivals: seq<Arrival>) returns (speaker: Speaker)
    requires model.Shaped() && |taps| == TAPS && Plays(arrivals)
    ensures speaker.Valid() && fresh(speaker) && speaker.detector.model == model && speaker.downsampler.taps == taps
    ensures speaker.stored == Recording(taps, arrivals) && speaker.config == config
    ensures speaker.downsampler.heard == Signal(arrivals) && speaker.detector.heard == Downsampled(taps, Signal(arrivals))
  {
    hide Mono, Pause, Downsampled, Held, OldestFirst, WholeScore, Stamp, Signal, Recording, Plays;
    speaker := new Speaker(model, taps, config);
    NothingRecorded(taps);
    assert arrivals[..0] == [];
    for i := 0 to |arrivals|
      invariant fresh(speaker.Repr()) && Plays(arrivals[..i]) && HasHeard(speaker, arrivals[..i])
    {
      PlaysSoFar(arrivals, i);
      hide HasHeard;
      HearOne(speaker, arrivals[..i], arrivals[i]);
    }
    assert arrivals[..|arrivals|] == arrivals;
  }

  lemma PlaysSoFar(arrivals: seq<Arrival>, i: nat)
    requires Plays(arrivals) && i < |arrivals|
    ensures arrivals[..i + 1] == arrivals[..i] + [arrivals[i]] && arrivals[i].Ok()
    ensures Plays(arrivals[..i]) && Plays(arrivals[..i + 1])
    ensures i > 0 ==> arrivals[i - 1].now <= arrivals[i].now
  {
  }

  lemma NothingRecorded(taps: seq<real>)
    ensures Plays([]) && Signal([]) == [] && Recording(taps, []) == []
  {
  }

  lemma Recorded(taps: seq<real>, before: seq<Arrival>, a: Arrival, quiet: seq<Sample>, speech: seq<Sample>)
    requires Plays(before) && Plays(before + [a]) && a.Ok()
    requires Downsampled(taps, Paused(before, a)) == Downsampled(taps, Signal(before)) + quiet
    requires Downsampled(taps, Paused(before, a) + Mono(a.stereo)) == Downsampled(taps, Paused(before, a)) + speech
    ensures Signal(before + [a]) == Paused(before, a) + Mono(a.stereo)
    ensures Recording(taps, before + [a])
            == Recording(taps, before) + [Segment(a.now, Duration(PauseAfter(before, a)), quiet, speech)]
  {
    assert (before + [a])[..|before|] == before;
  }
}
