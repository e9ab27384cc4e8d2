/** From packets to a conversation: each speaker's segments split into utterances at pauses
    (Utterances in discord-bot/audio/listen.go), turns joined (joinTurns in
    discord-bot/events/voice.go), and the windows of audio successive wakes transcribe. */
module Conversations {
  import opened Rotations
  import opened Downsamplers
  import opened Decoders
  import opened Listeners
  import opened Runs
  import opened Collections
  import opened Sorting

  const UTTERANCE_GAP: nat := 600_000_000
  const TURN_GAP: nat := 4800

  datatype Utterance = Utterance(user: nat, start: Time, pcm: seq<Sample>)

  /** A speaker's segments, as the listener's map yields them. */
  datatype Voice = Voice(user: nat, segments: seq<Segment>)

  // ---- splitting at pauses -------------------------------------------------------

  predicate Inside(s: Segment, from: Time, until: Time) {
    from <= s.at <= until
  }

  function Within(segments: seq<Segment>, from: Time, until: Time): seq<Segment> {
    if segments == [] then []
    else
      Within(segments[..|segments| - 1], from, until)
      + if Inside(segments[|segments| - 1], from, until) then [segments[|segments| - 1]] else []
  }

  /** Between two segments of one speaker: the second comes after a long pause. */
  const PAUSED := (a: Segment, b: Segment) => b.pause >= UTTERANCE_GAP

  /** One run of speech: the first segment without its leading silence, the rest with theirs. */
  function Speech(run: seq<Segment>): seq<Sample>
    requires run != []
  {
    if |run| == 1 then run[0].pcm
    else Speech(run[..|run| - 1]) + run[|run| - 1].quiet + run[|run| - 1].pcm
  }

  /** Each run said as one utterance, from the time of its first segment. */
  function Said(user: nat, runs: seq<seq<Segment>>): (us: seq<Utterance>)
    requires forall r :: 0 <= r < |runs| ==> runs[r] != []
    ensures |us| == |runs|
  {
    seq(|runs|, r requires 0 <= r < |runs| => Utterance(user, runs[r][0].at, Speech(runs[r])))
  }

  /** A speaker's utterances are the runs of their segments between pauses of at least the gap: each
      segment is said once and in order, a short pause is kept, the silence before a run is dropped. */
  function Split(user: nat, segments: seq<Segment>): (us: seq<Utterance>)
    ensures us == [] <==> segments == []
  {
    Said(user, Cut(segments, PAUSED))
  }

  lemma WithinOneMore(segments: seq<Segment>, i: nat, from: Time, until: Time)
    requires i < |segments|
    ensures Within(segments[..i + 1], from, until) ==
            if Inside(segments[i], from, until) then Within(segments[..i], from, until) + [segments[i]]
            else Within(segments[..i], from, until)
  {
    assert segments[..i + 1][..i] == segments[..i];
  }

  lemma NothingSaid(user: nat, from: Time, until: Time)
    ensures Split(user, Within([], from, until)) == []
  {
  }

  lemma SpeechOneMore(run: seq<Segment>, s: Segment)
    requires run != []
    ensures Speech(run + [s]) == Speech(run) + s.quiet + s.pcm
  {
    assert (run + [s])[..|run|] == run;
  }

  lemma SplitOneMore(user: nat, segments: seq<Segment>, s: Segment)
    ensures var before := Split(user, segments);
            Split(user, segments + [s]) ==
            if before == [] || s.pause >= UTTERANCE_GAP then before + [Utterance(user, s.at, s.pcm)]
            else before[|before| - 1 := before[|before| - 1].(pcm := before[|before| - 1].pcm + s.quiet + s.pcm)]
  {
    assert (segments + [s])[..|segments|] == segments;
    assert Cut(segments + [s], PAUSED) == Grown(Cut(segments, PAUSED), s, PAUSED);
    hide Cut, Grown, Said;
    SaidOneMore(user, Cut(segments, PAUSED), s);
  }

  lemma SaidOneMore(user: nat, runs: seq<seq<Segment>>, s: Segment)
    requires forall r :: 0 <= r < |runs| ==> runs[r] != []
    ensures var before := Said(user, runs);
            Said(user, Grown(runs, s, PAUSED)) ==
            if before == [] || s.pause >= UTTERANCE_GAP then before + [Utterance(user, s.at, s.pcm)]
            else before[|before| - 1 := before[|before| - 1].(pcm := before[|before| - 1].pcm + s.quiet + s.pcm)]
  {
    if runs != [] && s.pause < UTTERANCE_GAP {
      SpeechOneMore(runs[|runs| - 1], s);
      hide Speech;
    }
  }

  /** Every voice's utterances, voice by voice. */
  function SplitAll(voices: seq<Voice>, from: Time, until: Time): seq<Utterance> {
    if voices == [] then []
    else
      var v := voices[|voices| - 1];
      SplitAll(voices[..|voices| - 1], from, until) + Split(v.user, Within(v.segments, from, until))
  }

  /** The loop over one speaker's segments; current is -1 until one is inside the window. */
  method SplitVoice(before: seq<Utterance>, v: Voice, from: Time, until: Time) returns (out: seq<Utterance>)
    ensures out == before + Split(v.user, Within(v.segments, from, until))
  {
    hide Split, Within;
    out := before;
    var current := -1;
    NothingSaid(v.user, from, until);
    assert v.segments[..0] == [];
    for i := 0 to |v.segments|
      invariant out == before + Split(v.user, Within(v.segments[..i], from, until))
      invariant current == if |out| == |before| then -1 else |out| - 1
    {
      var s := v.segments[i];
      WithinOneMore(v.segments, i, from, until);
      ghost var seen := Within(v.segments[..i], from, until);
      if s.at < from || s.at > until {
        continue;
      }
      SplitOneMore(v.user, seen, s);
      ghost var said, was := Split(v.user, seen), out;
      assert was == before + said && (current < 0 <==> said == []);
      if current < 0 || s.pause >= UTTERANCE_GAP {
        out := out + [Utterance(v.user, s.at, [])];
        current := |out| - 1;
        out := out[current := out[current].(pcm := out[current].pcm + s.pcm)];
        assert [] + s.pcm == s.pcm;
        assert out == before + (said + [Utterance(v.user, s.at, s.pcm)]);
      } else {
        out := out[current := out[current].(pcm := out[current].pcm + s.quiet)];
        out := out[current := out[current].(pcm := out[current].pcm + s.pcm)];
        assert was[current] == said[|said| - 1];
        assert out == before + said[|said| - 1 := said[|said| - 1].(pcm := said[|said| - 1].pcm + s.quiet + s.pcm)];
      }
      assert out == before + Split(v.user, seen + [s]);
    }
    assert v.segments[..|v.segments|] == v.segments;
  }

  // ---- everybody is heard --------------------------------------------------------

  /** A segment's share of its utterance: its audio, after the silence before it but for the first. */
  function Sounds(run: seq<Segment>): (sounds: seq<seq<Sample>>)
    ensures |sounds| == |run|
  {
    seq(|run|, i requires 0 <= i < |run| => if i == 0 then run[i].pcm else run[i].quiet + run[i].pcm)
  }

  /** An utterance is the segments of its run end to end, with the silences between them. */
  lemma {:induction false} SpeechIsTheRun(run: seq<Segment>)
    requires run != []
    ensures Speech(run) == Flat(Sounds(run))
  {
    var init, last := run[..|run| - 1], run[|run| - 1];
    if init == [] {
      assert Sounds(run) == [run[0].pcm] && [run[0].pcm][..0] == [];
    } else {
      SpeechIsTheRun(init);
      assert Sounds(run)[..|init|] == Sounds(init);
      assert Flat(Sounds(init)) + last.quiet + last.pcm == Flat(Sounds(init)) + (last.quiet + last.pcm);
    }
  }

  /** Every segment of a window is said: in one utterance of its own speaker, that starts with its run, at one
      place, and nowhere else. */
  lemma EverySegmentIsSaidOnce(user: nat, segments: seq<Segment>, k: nat) returns (r: nat, j: nat, at: nat)
    requires k < |segments|
    ensures var runs, us := Cut(segments, PAUSED), Split(user, segments);
            && r < |us| == |runs| && us[r].user == user && us[r].start == runs[r][0].at
            && IsAt(runs, k, r, j) && runs[r][j] == segments[k]
            && at + |segments[k].pcm| <= |us[r].pcm| && us[r].pcm[at..at + |segments[k].pcm|] == segments[k].pcm
            && at == |Flat(Sounds(runs[r])[..j])| + (if j == 0 then 0 else |segments[k].quiet|)
            && forall q: nat, i: nat :: IsAt(runs, k, q, i) ==> q == r && i == j
  {
    var runs := Cut(segments, PAUSED);
    CutCuts(segments, PAUSED);
    r, j := Located(runs, k);
    forall q: nat, i: nat | IsAt(runs, k, q, i) ensures q == r && i == j {
      LocatedOnce(runs, k, r, j, q, i);
    }
    hide Cut, Sound;
    at := SaidAt(runs[r], j);
  }

  lemma SaidAt(run: seq<Segment>, j: nat) returns (at: nat)
    requires j < |run|
    ensures at == |Flat(Sounds(run)[..j])| + if j == 0 then 0 else |run[j].quiet|
    ensures at + |run[j].pcm| <= |Speech(run)| && Speech(run)[at..at + |run[j].pcm|] == run[j].pcm
  {
    hide Flat, Speech;
    SpeechIsTheRun(run);
    PartOfFlat(Sounds(run), j);
    var before := |Flat(Sounds(run)[..j])|;
    at := before + if j == 0 then 0 else |run[j].quiet|;
    var sound := Sounds(run)[j];
    assert sound[|sound| - |run[j].pcm|..] == run[j].pcm;
    assert |sound| == |run[j].pcm| + if j == 0 then 0 else |run[j].quiet|;
    hide *;
    EndOfSlice(Speech(run), before, sound, run[j].pcm);
  }

  /** The utterances of one person, in order. */
  function Of(us: seq<Utterance>, user: nat): seq<Utterance> {
    Filter(us, (u: Utterance) => u.user == user)
  }

  /** As the keys of the listener's map are. */
  predicate DistinctUsers(voices: seq<Voice>) {
    forall i, j :: 0 <= i < j < |voices| ==> voices[i].user != voices[j].user
  }

  lemma SplitOf(v: Voice, from: Time, until: Time, user: nat)
    ensures var us := Split(v.user, Within(v.segments, from, until));
            Of(us, user) == if user == v.user then us else []
  {
    var us := Split(v.user, Within(v.segments, from, until));
    assert forall i :: 0 <= i < |us| ==> us[i].user == v.user;
    hide Split, Within;
    if user == v.user {
      FilterAll(us, (u: Utterance) => u.user == user);
    } else {
      FilterNone(us, (u: Utterance) => u.user == user);
    }
  }

  lemma SplitAllOneMore(voices: seq<Voice>, from: Time, until: Time, user: nat)
    requires voices != []
    ensures var v := voices[|voices| - 1];
            Of(SplitAll(voices, from, until), user) ==
            Of(SplitAll(voices[..|voices| - 1], from, until), user)
            + if user == v.user then Split(v.user, Within(v.segments, from, until)) else []
  {
    var v := voices[|voices| - 1];
    SplitOf(v, from, until, user);
    FilterJoin(SplitAll(voices[..|voices| - 1], from, until), Split(v.user, Within(v.segments, from, until)),
               (u: Utterance) => u.user == user);
    hide Split, Within, Filter;
  }

  lemma {:induction false} NobodyElse(voices: seq<Voice>, from: Time, until: Time, user: nat)
    requires forall i :: 0 <= i < |voices| ==> voices[i].user != user
    ensures Of(SplitAll(voices, from, until), user) == []
  {
    if voices != [] {
      NobodyElse(voices[..|voices| - 1], from, until, user);
      SplitAllOneMore(voices, from, until, user);
    }
  }

  lemma {:induction false} EverybodysOwn(voices: seq<Voice>, from: Time, until: Time, i: nat)
    requires DistinctUsers(voices) && i < |voices|
    ensures Of(SplitAll(voices, from, until), voices[i].user) == Split(voices[i].user, Within(voices[i].segments, from, until))
  {
    var init := voices[..|voices| - 1];
    SplitAllOneMore(voices, from, until, voices[i].user);
    if i < |init| {
      EverybodysOwn(init, from, until, i);
    } else {
      NobodyElse(init, from, until, voices[i].user);
    }
  }

  lemma SameOf(a: seq<Utterance>, b: seq<Utterance>, user: nat)
    requires multiset(a) == multiset(b)
    ensures multiset(Of(a, user)) == multiset(Of(b, user))
  {
    var keep := (u: Utterance) => u.user == user;
    forall x ensures multiset(Filter(a, keep))[x] == multiset(Filter(b, keep))[x] {
      FilterCounts(a, keep, x);
      FilterCounts(b, keep, x);
    }
    assert multiset(Filter(a, keep)) == multiset(Filter(b, keep));
  }

  /** Whatever order the voices come in and the sort leaves them in: each speaker's utterances are the runs of
      what they said in the window, and nobody else's are there. */
  lemma {:induction false} EverybodyIsHeard(voices: seq<Voice>, from: Time, until: Time, out: seq<Utterance>)
    requires DistinctUsers(voices) && multiset(out) == multiset(SplitAll(voices, from, until))
    ensures forall i :: 0 <= i < |voices| ==>
              multiset(Of(out, voices[i].user)) == multiset(Split(voices[i].user, Within(voices[i].segments, from, until)))
    ensures forall user :: (forall i :: 0 <= i < |voices| ==> voices[i].user != user) ==> Of(out, user) == []
  {
    forall i | 0 <= i < |voices|
      ensures multiset(Of(out, voices[i].user)) == multiset(Split(voices[i].user, Within(voices[i].segments, from, until)))
    {
      SameOf(out, SplitAll(voices, from, until), voices[i].user);
      EverybodysOwn(voices, from, until, i);
    }
    forall user: nat | forall i :: 0 <= i < |voices| ==> voices[i].user != user ensures Of(out, user) == [] {
      SameOf(out, SplitAll(voices, from, until), user);
      NobodyElse(voices, from, until, user);
      assert |multiset(Of(out, user))| == 0;
    }
  }

  /** Utterances: everything said in the window, oldest first across every speaker. The voices come
      in whatever order the map yields them, and equal starts in whatever order the sort leaves them. */
  method Utterances(voices: seq<Voice>, from: Time, until: Time) returns (out: seq<Utterance>)
    ensures InOrder(out, (u: Utterance) => u.start)
    ensures multiset(out) == multiset(SplitAll(voices, from, until))
    ensures DistinctUsers(voices) ==>
              && (forall i :: 0 <= i < |voices| ==>
                    multiset(Of(out, voices[i].user)) == multiset(Split(voices[i].user, Within(voices[i].segments, from, until))))
              && forall user :: (forall i :: 0 <= i < |voices| ==> voices[i].user != user) ==> Of(out, user) == []
  {
    out := [];
    for i := 0 to |voices|
      invariant out == SplitAll(voices[..i], from, until)
    {
      assert voices[..i + 1][..i] == voices[..i];
      out := SplitVoice(out, voices[i], from, until);
    }
    assert voices[..|voices|] == voices;
    out := Sort(out, (u: Utterance) => u.start);
    hide SplitAll, Split, Of, Within;
    if DistinctUsers(voices) {
      EverybodyIsHeard(voices, from, until, out);
    }
  }

  // ---- which pauses separate -----------------------------------------------------

  const GAP_SAMPLES: nat := 28800

  lemma GapInSamples(silence: nat)
    ensures Duration(silence) >= UTTERANCE_GAP <==> silence >= GAP_SAMPLES
  {
  }

  /** In any stretch of a recording, a packet begins an utterance exactly when the pause before it, and what
      the packet before that is longer, come to 600 ms or more and to less than five seconds. */
  lemma PausesSeparateExactly(taps: seq<real>, arrivals: seq<Arrival>, lo: nat, hi: nat, i: nat)
    requires Plays(arrivals) && lo < i < hi <= |arrivals| && Near(arrivals[i - 1].sent, arrivals[i].sent)
    ensures Begins(Cut(Recording(taps, arrivals)[lo..hi], PAUSED), i - lo) <==> Separates(arrivals[i - 1].sent, arrivals[i].sent)
  {
    hide Measured, Begins, Cut, Duration, Recording, Downsampled;
    var stretch, pause := Recording(taps, arrivals)[lo..hi], PauseAfter(arrivals[..i], arrivals[i]);
    RunsBeginExactly(stretch, PAUSED, i - lo);
    RecordingAt(taps, arrivals, i);
    assert stretch[i - lo].pause == Duration(pause);
    GapInSamples(pause);
    PauseIsOffByTheLengths(arrivals[i - 1].sent, arrivals[i].sent);
  }

  predicate Separates(a: Sent, b: Sent) {
    GAP_SAMPLES <= TruePause(a, b) + a.length - b.length < MAX_SILENCE
  }

  /** So a pause of 600 ms and none shorter separates, whenever the next packet comes in less than five
      seconds, exactly when that packet is as long as the last. */
  lemma SeparatesAtTheGapExactly(a: Sent, n: nat)
    requires a.length <= MAX_PACKET && n <= MAX_PACKET
    ensures (forall t: nat :: 0 <= TruePause(a, Sent(t, n)) < MAX_SILENCE ==>
               (Separates(a, Sent(t, n)) <==> TruePause(a, Sent(t, n)) >= GAP_SAMPLES))
            <==> n == a.length
  {
    if n < a.length {
      var b := Sent(a.time + a.length + GAP_SAMPLES - 1, n);
      assert Separates(a, b) && TruePause(a, b) < GAP_SAMPLES;
    } else if n > a.length {
      var b := Sent(a.time + a.length + GAP_SAMPLES, n);
      assert !Separates(a, b) && TruePause(a, b) == GAP_SAMPLES;
    }
  }

  /** A silence of 490 ms between a long packet and a short one separates, and one of 600 ms between a short
      packet and a long one does not. */
  lemma UnequalPacketsMislead()
    ensures var a, b := Sent(0, 5760), Sent(29280, 480); TruePause(a, b) == 23520 && Separates(a, b)
    ensures var a, b := Sent(0, 480), Sent(29280, 5760); TruePause(a, b) == GAP_SAMPLES && !Separates(a, b)
  {
  }

  /** How many segments there are up to the last one before t. */
  function Earlier(segments: seq<Segment>, t: Time): (n: nat)
    ensures n <= |segments|
  {
    if segments == [] || segments[|segments| - 1].at < t then |segments| else Earlier(segments[..|segments| - 1], t)
  }

  /** What a window takes of one speaker is a stretch of what is held. */
  lemma {:induction false} WithinIsAStretch(segments: seq<Segment>, from: Time, until: Time)
    requires OldestFirst(segments) && from <= until
    ensures Earlier(segments, from) <= Earlier(segments, until + 1)
    ensures Within(segments, from, until) == segments[Earlier(segments, from)..Earlier(segments, until + 1)]
  {
    if segments != [] {
      var init, s := segments[..|segments| - 1], segments[|segments| - 1];
      WithinIsAStretch(init, from, until);
      assert init != [] ==> init[|init| - 1].at <= s.at;
      hide OldestFirst;
      var lo, hi := Earlier(init, from), Earlier(init, until + 1);
      PrefixSlice(segments, |init|, lo, hi);
      if Inside(s, from, until) {
        SliceOneMore(segments, lo, |init|);
      }
    }
  }

  lemma {:induction false} NothingWithin(segments: seq<Segment>, from: Time, until: Time)
    requires until < from
    ensures Within(segments, from, until) == []
  {
    if segments != [] {
      NothingWithin(segments[..|segments| - 1], from, until);
    }
  }

  lemma RecordingOldestFirst(taps: seq<real>, arrivals: seq<Arrival>)
    requires Plays(arrivals)
    ensures OldestFirst(Recording(taps, arrivals))
  {
    var rec := Recording(taps, arrivals);
    hide Recording;
    forall i, j | 0 <= i < j < |rec| ensures rec[i].at <= rec[j].at {
      RecordingAt(taps, arrivals, i);
      RecordingAt(taps, arrivals, j);
    }
  }

  lemma HeldIsASuffix(stored: seq<Segment>, keep: Time) returns (gone: nat)
    requires OldestFirst(stored)
    ensures gone <= |stored| && Held(stored, keep) == stored[gone..] && OldestFirst(Held(stored, keep))
  {
    gone := 0;
    if stored != [] {
      TrimmedKeepsTheRecent(stored, stored[|stored| - 1].at - keep);
      gone := |stored| - |Held(stored, keep)|;
    }
  }

  lemma HeldIsAStretch(stored: seq<Segment>, keep: Time, from: Time, until: Time) returns (lo: nat, hi: nat)
    requires OldestFirst(stored)
    ensures lo <= hi <= |stored| && Within(Held(stored, keep), from, until) == stored[lo..hi]
  {
    hide *;
    var gone := HeldIsASuffix(stored, keep);
    if until < from {
      NothingWithin(Held(stored, keep), from, until);
      lo, hi := 0, 0;
    } else {
      WithinIsAStretch(Held(stored, keep), from, until);
      lo, hi := Earlier(Held(stored, keep), from), Earlier(Held(stored, keep), until + 1);
      SuffixSlice(stored, gone, lo, hi);
      lo, hi := gone + lo, gone + hi;
    }
  }

  /** From packets to utterances: whatever is still held of a speaker's packets and whatever the window,
      it takes a stretch of them, and within it utterances begin exactly after those pauses. */
  lemma UtterancesOfPackets(taps: seq<real>, arrivals: seq<Arrival>, keep: Time, from: Time, until: Time)
    returns (lo: nat, hi: nat)
    requires Plays(arrivals)
    ensures lo <= hi <= |arrivals|
    ensures Within(Held(Recording(taps, arrivals), keep), from, until) == Recording(taps, arrivals)[lo..hi]
    ensures forall i :: lo < i < hi && Near(arrivals[i - 1].sent, arrivals[i].sent) ==>
              (Begins(Cut(Recording(taps, arrivals)[lo..hi], PAUSED), i - lo)
               <==> Separates(arrivals[i - 1].sent, arrivals[i].sent))
  {
    hide Begins, Cut, Recording, Near, Separates, Held, Within, OldestFirst;
    RecordingOldestFirst(taps, arrivals);
    lo, hi := HeldIsAStretch(Recording(taps, arrivals), keep, from, until);
    forall i | lo < i < hi && Near(arrivals[i - 1].sent, arrivals[i].sent)
      ensures Begins(Cut(Recording(taps, arrivals)[lo..hi], PAUSED), i - lo)
              <==> Separates(arrivals[i - 1].sent, arrivals[i].sent)
    {
      PausesSeparateExactly(taps, arrivals, lo, hi, i);
    }
  }

  lemma NoPauseBefore(taps: seq<real>, before: seq<Arrival>, a: Arrival)
    requires Plays(before) && a.Ok() && PauseAfter(before, a) == 0
    ensures var s := SegmentAfter(taps, before, a);
            s.pause == 0 && s.quiet == [] && s.at == a.now
            && Downsampled(taps, Signal(before)) + s.pcm == Downsampled(taps, Signal(before) + Mono(a.stereo))
  {
    hide Mono, Downsampled, PauseAfter, Signal;
    assert Paused(before, a) == Signal(before);
    DownsampledPrefix(taps, Signal(before), Mono(a.stereo));
  }

  lemma TwoSaid(user: nat, a: Segment, b: Segment)
    requires b.pause < UTTERANCE_GAP && b.quiet == []
    ensures Split(user, [a, b]) == [Utterance(user, a.at, a.pcm + b.pcm)]
  {
    SplitOneMore(user, [], a);
    SplitOneMore(user, [a], b);
    assert [] + [a] == [a] && [a] + [b] == [a, b];
    hide Split;
    assert a.pcm + [] + b.pcm == a.pcm + b.pcm;
  }

  /** The longest pauses separate nothing: packets measured five seconds or more apart, on timestamps that
      have not half wrapped, are one utterance with no silence in it. */
  lemma LongPausesVanish(taps: seq<real>, user: nat, a: Arrival, b: Arrival)
    requires Plays([a, b]) && Near(a.sent, b.sent) && TruePause(a.sent, b.sent) + a.sent.length - b.sent.length >= MAX_SILENCE
    ensures a.Ok() && b.Ok()
    ensures Split(user, Recording(taps, [a, b])) == [Utterance(user, a.now, Downsampled(taps, Mono(a.stereo) + Mono(b.stereo)))]
  {
    assert [a, b][0].Ok() && [a, b][1].Ok();
    PauseIsOffByTheLengths(a.sent, b.sent);
    assert PauseAfter([], a) == PauseAfter([a], b) == 0;
    assert [a][..0] == [a, b][..0] == [] && [a, b][..1] == [a];
    assert Signal([]) == [] && Signal([a]) == [] + [] + Mono(a.stereo) == Mono(a.stereo);
    RecordingAt(taps, [a, b], 0);
    RecordingAt(taps, [a, b], 1);
    NoPauseBefore(taps, [], a);
    NoPauseBefore(taps, [a], b);
    hide Recording, PauseAfter, Pause, Downsampled, Mono, Signal, Paused, SegmentAfter;
    var rec := Recording(taps, [a, b]);
    assert rec == [rec[0], rec[1]];
    assert Downsampled(taps, []) == [] && [] + Mono(a.stereo) == Mono(a.stereo);
    TwoSaid(user, rec[0], rec[1]);
  }

  // ---- joining turns -------------------------------------------------------------

  /** Between two utterances: somebody else speaks. */
  const SPEAKER_CHANGES := (a: Utterance, b: Utterance) => a.user != b.user

  /** Two turns of one person as one, with 300 ms of silence between. */
  function Merged(a: Utterance, b: Utterance): Utterance {
    a.(pcm := a.pcm + Zeros(TURN_GAP) + b.pcm)
  }

  /** A run of one person's utterances as one. */
  function Turn(run: seq<Utterance>): Utterance
    requires run != []
  {
    if |run| == 1 then run[0] else Merged(Turn(run[..|run| - 1]), run[|run| - 1])
  }

  function Turns(runs: seq<seq<Utterance>>): (us: seq<Utterance>)
    requires forall r :: 0 <= r < |runs| ==> runs[r] != []
    ensures |us| == |runs|
  {
    seq(|runs|, r requires 0 <= r < |runs| => Turn(runs[r]))
  }

  /** Every run of utterances by one person becomes one turn, in order. */
  function Join(us: seq<Utterance>): (out: seq<Utterance>)
    ensures out == [] <==> us == []
  {
    Turns(Cut(us, SPEAKER_CHANGES))
  }

  lemma {:induction false} TurnIsOnePersons(run: seq<Utterance>)
    requires RunOk(run, SPEAKER_CHANGES)
    ensures Turn(run).user == run[|run| - 1].user && Turn(run).start == run[0].start
  {
    if |run| > 1 {
      var init := run[..|run| - 1];
      assert forall k :: 0 < k < |init| ==> !SPEAKER_CHANGES(init[k - 1], init[k]);
      TurnIsOnePersons(init);
      assert !SPEAKER_CHANGES(run[|run| - 2], run[|run| - 1]);
    }
  }

  lemma TurnsGrown(runs: seq<seq<Utterance>>, u: Utterance)
    requires (forall r :: 0 <= r < |runs| ==> runs[r] != []) && Sound(runs, SPEAKER_CHANGES)
    ensures var before, last := Turns(runs), |runs| - 1;
            Turns(Grown(runs, u, SPEAKER_CHANGES)) ==
            if before != [] && before[last].user == u.user then before[last := Merged(before[last], u)] else before + [u]
  {
    hide Merged;
    if runs != [] {
      var last := runs[|runs| - 1];
      assert RunOk(last, SPEAKER_CHANGES);
      hide Sound;
      TurnOneMore(last, u);
      hide RunOk, Turn;
      assert Turns(runs)[|runs| - 1] == Turn(last);
    }
  }

  /** One more utterance joins the last turn if that is the same person's, and starts a turn if not. */
  lemma JoinOneMore(us: seq<Utterance>, u: Utterance)
    ensures var before, last := Join(us), |Join(us)| - 1;
            Join(us + [u]) == if before != [] && before[last].user == u.user then before[last := Merged(before[last], u)]
                              else before + [u]
  {
    CutCuts(us, SPEAKER_CHANGES);
    TurnsGrown(Cut(us, SPEAKER_CHANGES), u);
    assert (us + [u])[..|us|] == us;
    hide Merged, Turns, Sound, Grown;
    assert Cut(us + [u], SPEAKER_CHANGES) == Grown(Cut(us, SPEAKER_CHANGES), u, SPEAKER_CHANGES);
  }

  lemma TurnOneMore(run: seq<Utterance>, u: Utterance)
    requires RunOk(run, SPEAKER_CHANGES)
    ensures Turn(run).user == run[|run| - 1].user
    ensures Turn(run + [u]) == Merged(Turn(run), u)
  {
    TurnIsOnePersons(run);
    assert (run + [u])[..|run|] == run;
  }

  /** joinTurns. */
  method JoinTurns(utterances: seq<Utterance>) returns (out: seq<Utterance>)
    ensures out == Join(utterances)
  {
    hide Join;
    out := [];
    assert utterances[..0] == [];
    for i := 0 to |utterances|
      invariant out == Join(utterances[..i])
    {
      var u := utterances[i];
      JoinOneMore(utterances[..i], u);
      assert utterances[..i + 1] == utterances[..i] + [u];
      var last := |out| - 1;
      if last >= 0 && out[last].user == u.user {
        out := out[last := out[last].(pcm := out[last].pcm + Zeros(TURN_GAP))];
        out := out[last := out[last].(pcm := out[last].pcm + u.pcm)];
        continue;
      }
      out := out + [u];
    }
    assert utterances[..|utterances|] == utterances;
  }

  predicate NeighboursDiffer(us: seq<Utterance>) {
    forall i :: 0 < i < |us| ==> us[i - 1].user != us[i].user
  }

  /** In turns, and oldest first. */
  predicate Alternates(us: seq<Utterance>) {
    NeighboursDiffer(us) && forall i, j :: 0 <= i < j < |us| ==> us[i].start <= us[j].start
  }

  lemma ReplaceTurn(us: seq<Utterance>, u: Utterance)
    requires us != [] && Alternates(us) && u.user == us[|us| - 1].user && u.start == us[|us| - 1].start
    ensures Alternates(us[|us| - 1 := u])
  {
  }

  lemma AppendTurn(us: seq<Utterance>, u: Utterance)
    requires Alternates(us)
    requires us == [] || (us[|us| - 1].user != u.user && us[|us| - 1].start <= u.start)
    ensures Alternates(us + [u])
  {
  }

  lemma JoinedStart(before: seq<Utterance>, u: Utterance)
    requires Alternates(before) && (before != [] ==> before[|before| - 1].start <= u.start)
    ensures var last := |before| - 1;
            var after := if before != [] && before[last].user == u.user then before[last := Merged(before[last], u)] else before + [u];
            after != [] && Alternates(after) && after[|after| - 1].start <= u.start
  {
    hide Alternates;
    var last := |before| - 1;
    if before != [] && before[last].user == u.user {
      ReplaceTurn(before, Merged(before[last], u));
    } else {
      AppendTurn(before, u);
    }
  }

  /** After joining no two neighbours are the same person, and starts stay in order. */
  lemma {:induction false} JoinAlternates(us: seq<Utterance>)
    requires forall i, j :: 0 <= i < j < |us| ==> us[i].start <= us[j].start
    ensures Alternates(Join(us))
    ensures us != [] ==> Join(us)[|Join(us)| - 1].start <= us[|us| - 1].start
  {
    if us != [] {
      hide Join, Alternates, Merged;
      var init, u := us[..|us| - 1], us[|us| - 1];
      JoinAlternates(init);
      JoinOneMore(init, u);
      assert us == init + [u];
      assert init != [] ==> init[|init| - 1].start <= u.start;
      JoinedStart(Join(init), u);
    }
  }

  /** Everything that is heard, with one gap of silence after every utterance. */
  function Audio(us: seq<Utterance>): seq<Sample> {
    if us == [] then [] else Audio(us[..|us| - 1]) + us[|us| - 1].pcm + Zeros(TURN_GAP)
  }

  lemma AudioOneMore(us: seq<Utterance>, u: Utterance)
    ensures Audio(us + [u]) == Audio(us) + u.pcm + Zeros(TURN_GAP)
  {
    assert (us + [u])[..|us|] == us;
  }

  lemma MergedAudio(before: seq<Utterance>, u: Utterance)
    requires before != []
    ensures var last := |before| - 1;
            Audio(before[last := Merged(before[last], u)]) == Audio(before) + u.pcm + Zeros(TURN_GAP)
  {
    var init, last := before[..|before| - 1], before[|before| - 1];
    assert before[|before| - 1 := Merged(last, u)] == init + [Merged(last, u)];
    AudioOneMore(init, Merged(last, u));
    hide Zeros;
    assert Audio(init) + (last.pcm + Zeros(TURN_GAP) + u.pcm) == Audio(init) + last.pcm + Zeros(TURN_GAP) + u.pcm;
  }

  /** Joining keeps every sample in its place: the gap put between two merged utterances is the one
      that came after the first. */
  lemma {:induction false} JoinKeepsTheAudio(us: seq<Utterance>)
    ensures Audio(Join(us)) == Audio(us) && |Join(us)| <= |us|
  {
    if us != [] {
      hide Join, Audio, Merged, Zeros;
      var init, u := us[..|us| - 1], us[|us| - 1];
      JoinKeepsTheAudio(init);
      JoinOneMore(init, u);
      assert us == init + [u];
      AudioOneMore(init, u);
      AudioOneMore(Join(init), u);
      if Join(init) != [] {
        MergedAudio(Join(init), u);
      }
    }
  }

  function Length(us: seq<Utterance>): nat {
    if us == [] then 0 else Length(us[..|us| - 1]) + |us[|us| - 1].pcm|
  }

  lemma {:induction false} AudioLength(us: seq<Utterance>)
    ensures |Audio(us)| == Length(us) + |us| * TURN_GAP
  {
    if us != [] {
      AudioLength(us[..|us| - 1]);
    }
  }

  /** So the total length grows by exactly one gap per merge. */
  lemma JoinGrowsByTheGaps(us: seq<Utterance>)
    ensures Length(Join(us)) == Length(us) + (|us| - |Join(us)|) * TURN_GAP
  {
    JoinKeepsTheAudio(us);
    AudioLength(us);
    AudioLength(Join(us));
  }

  /** A conversation already in turns is left alone. */
  lemma {:induction false} JoinLeavesTurns(us: seq<Utterance>)
    requires NeighboursDiffer(us)
    ensures Join(us) == us
  {
    if us != [] {
      JoinLeavesTurns(us[..|us| - 1]);
      JoinOneMore(us[..|us| - 1], us[|us| - 1]);
      assert us == us[..|us| - 1] + [us[|us| - 1]];
    }
  }

  /** Joining twice is joining once. */
  lemma JoinIsIdempotent(us: seq<Utterance>)
    requires forall i, j :: 0 <= i < j < |us| ==> us[i].start <= us[j].start
    ensures Join(Join(us)) == Join(us)
  {
    JoinAlternates(us);
    JoinLeavesTurns(Join(us));
  }

  // ---- the windows of successive wakes -------------------------------------------

  /** When a wake was heard, and when its command was over. */
  datatype Wake = Wake(at: Time, until: Time)

  /** One guild's wakes, answered one at a time on one clock. */
  predicate OneAtATime(wakes: seq<Wake>) {
    && (forall i :: 0 <= i < |wakes| ==> wakes[i].at <= wakes[i].until)
    && (forall i, j :: 0 <= i < j < |wakes| ==> wakes[i].at <= wakes[j].at)
    && (forall i, j :: 0 <= i < j < |wakes| ==> wakes[i].until < wakes[j].until)
  }

  /** How far the guild's audio had been transcribed when the j-th wake was answered. */
  function HeardBefore(wakes: seq<Wake>, j: nat): Time
    requires j < |wakes|
  {
    if j == 0 then 0 else wakes[j - 1].until
  }

  /** from in answerWake: the wake's context, but nothing before what was already heard. */
  function From(wakes: seq<Wake>, context: Time, j: nat): (from: Time)
    requires j < |wakes|
  {
    var from := wakes[j].at - context;
    if from < HeardBefore(wakes, j) then HeardBefore(wakes, j) else from
  }

  predicate InWindow(wakes: seq<Wake>, context: Time, j: nat, t: Time)
    requires j < |wakes|
  {
    From(wakes, context, j) <= t <= wakes[j].until
  }

  /** An instant is in the windows of two wakes exactly when it is the one the first fell quiet at and the
      wake right after it looks back that far. */
  lemma InTwoWindowsExactly(wakes: seq<Wake>, context: Time, i: nat, j: nat, t: Time)
    requires OneAtATime(wakes) && i < j < |wakes|
    ensures InWindow(wakes, context, i, t) && InWindow(wakes, context, j, t)
            <==> t == wakes[i].until && j == i + 1 && wakes[j].at - context <= t
  {
    if i < j - 1 {
      assert wakes[i].until < wakes[j - 1].until;
    }
  }

  predicate InContext(wakes: seq<Wake>, context: Time, j: nat, t: Time)
    requires j < |wakes|
  {
    wakes[j].at - context <= t <= wakes[j].until
  }

  /** The first instant of a wake's window that no earlier window has. */
  function First(wakes: seq<Wake>, context: Time, j: nat): (first: Time)
    requires j < |wakes|
  {
    if j > 0 && From(wakes, context, j) == wakes[j - 1].until then wakes[j - 1].until + 1 else From(wakes, context, j)
  }

  /** Every instant of a wake's context is in its window or an earlier one's, and new to one of them. */
  lemma {:induction false} ContextIsCovered(wakes: seq<Wake>, context: Time, j: nat, t: Time) returns (i: nat)
    requires OneAtATime(wakes) && j < |wakes| && InContext(wakes, context, j, t)
    ensures i <= j && InWindow(wakes, context, i, t) && First(wakes, context, i) <= t
  {
    if First(wakes, context, j) <= t {
      i := j;
    } else {
      assert wakes[j - 1].at <= wakes[j].at;
      i := ContextIsCovered(wakes, context, j - 1, t);
    }
  }

  // ---- what is still held when a wake is answered --------------------------------

  /** When each wake's audio was collected, at the earliest when the command was over. */
  predicate Collected(wakes: seq<Wake>, collected: seq<Time>) {
    |collected| == |wakes| && forall k :: 0 <= k < |wakes| ==> wakes[k].until <= collected[k]
  }

  /** The segments a speaker had stored by the time now. */
  function StoredBy(stored: seq<Segment>, now: Time): (r: seq<Segment>)
    ensures r <= stored && (r != [] ==> r[|r| - 1].at <= now)
  {
    if stored != [] && stored[|stored| - 1].at > now then StoredBy(stored[..|stored| - 1], now) else stored
  }

  /** What the k-th wake collects of a speaker. */
  function Taken(wakes: seq<Wake>, context: Time, collected: seq<Time>, keep: Time, stored: seq<Segment>, k: nat): seq<Segment>
    requires Collected(wakes, collected) && k < |wakes|
  {
    Within(Held(StoredBy(stored, collected[k]), keep), From(wakes, context, k), wakes[k].until)
  }

  /** A segment of some wake's context that neither that wake nor an earlier one transcribes. */
  ghost predicate Misses(wakes: seq<Wake>, context: Time, collected: seq<Time>, keep: Time, stored: seq<Segment>, j: nat, s: Segment)
    requires Collected(wakes, collected) && j < |wakes|
  {
    && OldestFirst(stored) && s in stored && InContext(wakes, context, j, s.at)
    && forall i :: 0 <= i <= j ==> s !in Taken(wakes, context, collected, keep, stored, i)
  }

  lemma {:induction false} WithinHas(segments: seq<Segment>, from: Time, until: Time, s: Segment)
    ensures s in Within(segments, from, until) <==> s in segments && Inside(s, from, until)
  {
    if segments != [] {
      WithinHas(segments[..|segments| - 1], from, until, s);
      assert segments == segments[..|segments| - 1] + [segments[|segments| - 1]];
    }
  }

  lemma {:induction false} StoredByHas(stored: seq<Segment>, now: Time, s: Segment)
    requires OldestFirst(stored)
    ensures s in StoredBy(stored, now) <==> s in stored && s.at <= now
  {
    if stored != [] && stored[|stored| - 1].at > now {
      StoredByHas(stored[..|stored| - 1], now, s);
      assert stored == stored[..|stored| - 1] + [stored[|stored| - 1]];
    }
  }

  /** What a wake collects: the segments of its window within keep of the last packet come before it. */
  lemma TakenHas(wakes: seq<Wake>, context: Time, collected: seq<Time>, keep: Time, stored: seq<Segment>, k: nat, s: Segment)
    requires Collected(wakes, collected) && k < |wakes| && OldestFirst(stored) && s in stored
    ensures var had := StoredBy(stored, collected[k]);
            s in Taken(wakes, context, collected, keep, stored, k)
            <==> InWindow(wakes, context, k, s.at) && had != [] && had[|had| - 1].at - keep <= s.at
  {
    var had := StoredBy(stored, collected[k]);
    StoredByHas(stored, collected[k], s);
    WithinHas(Held(had, keep), From(wakes, context, k), wakes[k].until, s);
    if s in had {
      HeldExactly(had, keep, s);
    } else if had != [] {
      TrimmedKeepsTheRecent(had, had[|had| - 1].at - keep);
    }
  }

  /** A wake is collected in time when the instants new to its window are then within keep. */
  predicate CollectedInTime(wakes: seq<Wake>, context: Time, collected: seq<Time>, keep: Time)
    requires Collected(wakes, collected)
  {
    forall k :: 0 <= k < |wakes| ==> collected[k] - keep <= First(wakes, context, k)
  }

  lemma InTimeMissesNothing(wakes: seq<Wake>, context: Time, collected: seq<Time>, keep: Time, stored: seq<Segment>, j: nat, s: Segment)
    requires OneAtATime(wakes) && Collected(wakes, collected) && CollectedInTime(wakes, context, collected, keep) && j < |wakes|
    ensures !Misses(wakes, context, collected, keep, stored, j, s)
  {
    if OldestFirst(stored) && s in stored && InContext(wakes, context, j, s.at) {
      var i := ContextIsCovered(wakes, context, j, s.at);
      TakenHas(wakes, context, collected, keep, stored, i, s);
      StoredByHas(stored, collected[i], s);
      hide Taken, StoredBy, First;
      assert s in Taken(wakes, context, collected, keep, stored, i);
    }
  }

  lemma LateMissesSome(wakes: seq<Wake>, context: Time, collected: seq<Time>, keep: Time, k: nat) returns (stored: seq<Segment>)
    requires OneAtATime(wakes) && Collected(wakes, collected) && k < |wakes|
    requires collected[k] - keep > First(wakes, context, k)
    ensures |stored| == 2 && Misses(wakes, context, collected, keep, stored, k, stored[0])
  {
    var first := First(wakes, context, k);
    stored := [Segment(first, 0, [], []), Segment(collected[k], 0, [], [])];
    forall i | 0 <= i <= k ensures stored[0] !in Taken(wakes, context, collected, keep, stored, i) {
      TakenHas(wakes, context, collected, keep, stored, i, stored[0]);
      if i < k {
        assert wakes[i].until <= wakes[k - 1].until;
      } else {
        assert StoredBy(stored, collected[k]) == stored;
      }
    }
  }

  /** Whatever the speakers say, all of every wake's context is transcribed, for it or for an earlier wake,
      exactly when every wake is collected in time. */
  lemma NothingIsMissedExactly(wakes: seq<Wake>, context: Time, collected: seq<Time>, keep: Time)
    requires OneAtATime(wakes) && Collected(wakes, collected)
    ensures (forall stored, j, s :: 0 <= j < |wakes| ==> !Misses(wakes, context, collected, keep, stored, j, s))
            <==> CollectedInTime(wakes, context, collected, keep)
  {
    if CollectedInTime(wakes, context, collected, keep) {
      forall stored, j, s | 0 <= j < |wakes| ensures !Misses(wakes, context, collected, keep, stored, j, s) {
        InTimeMissesNothing(wakes, context, collected, keep, stored, j, s);
      }
    } else {
      var k :| 0 <= k < |wakes| && collected[k] - keep > First(wakes, context, k);
      var stored := LateMissesSome(wakes, context, collected, keep, k);
      assert Misses(wakes, context, collected, keep, stored, k, stored[0]);
    }
  }

  /** The configured window is enough for wakes that are answered as they are heard: with room for the
      context, the longest command and the quiet after it, wakes collected within those two miss nothing. */
  lemma PromptAnswersMissNothing(wakes: seq<Wake>, context: Time, collected: seq<Time>, keep: Time, command: Time, quiet: Time)
    requires OneAtATime(wakes) && Collected(wakes, collected) && keep >= context + command + quiet
    requires forall k :: 0 <= k < |wakes| ==> collected[k] <= wakes[k].at + command + quiet
    ensures forall stored, j, s :: 0 <= j < |wakes| ==> !Misses(wakes, context, collected, keep, stored, j, s)
  {
    hide Misses;
    NothingIsMissedExactly(wakes, context, collected, keep);
  }

  /** But wakes are answered one at a time. In milliseconds and as configured by default, a wake 7 s after
      one that took a minute to answer finds half a minute of its context gone. */
  lemma QueuedWakesMissContext() returns (stored: seq<Segment>)
    ensures var wakes, collected := [Wake(100_000, 103_000), Wake(110_000, 163_000)], [103_000, 163_000];
            && OneAtATime(wakes) && Collected(wakes, collected) && |stored| == 2
            && Misses(wakes, 10_000, collected, 30_000, stored, 1, stored[0])
  {
    stored := LateMissesSome([Wake(100_000, 103_000), Wake(110_000, 163_000)], 10_000, [103_000, 163_000], 30_000, 1);
  }
}
