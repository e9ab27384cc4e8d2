/** 48 kHz to 16 kHz a packet at a time (shared/audio/resample.go): a 63-tap low pass, then every
    third sample, with the filter's history and phase carried between calls. */
module Downsamplers {
  import opened Collections

  type Sample = x: int | -0x8000 <= x < 0x8000

  const FACTOR: nat := 3
  const TAPS: nat := 63

  // ---- the whole-signal definition -----------------------------------------------

  /** The signal at i, silent before it starts. */
  function Heard(x: seq<Sample>, i: int): Sample
    requires i < |x|
  {
    if i < 0 then 0 else x[i]
  }

  /** The first n terms of the filter over the window that ends at i. */
  function Filtered(taps: seq<real>, x: seq<Sample>, i: nat, n: nat): real
    requires i < |x| && n <= |taps|
  {
    if n == 0 then 0.0 else Filtered(taps, x, i, n - 1) + taps[n - 1] * Heard(x, i - (n - 1)) as real
  }

  /** math.Round, half away from zero, kept within 16 bits. */
  function Quantize(f: real): Sample {
    var rounded := if f >= 0.0 then (f + 0.5).Floor else -((-f + 0.5).Floor);
    if rounded < -32768 then -32768 else if rounded > 32767 then 32767 else rounded
  }

  function Thirds(n: nat): nat {
    (n + 2) / 3
  }

  lemma NextThird(n: nat)
    ensures Thirds(n + 1) == Thirds(n) + if n % FACTOR == 0 then 1 else 0
    ensures n % FACTOR == 0 ==> 3 * Thirds(n) == n
    ensures (n % FACTOR + 1) % FACTOR == (n + 1) % FACTOR
  {
  }

  /** The filter at every index divisible by three. */
  function Downsampled(taps: seq<real>, x: seq<Sample>): (y: seq<Sample>)
    ensures |y| == Thirds(|x|)
  {
    seq(Thirds(|x|), m requires 0 <= m < Thirds(|x|) => Quantize(Filtered(taps, x, 3 * m, |taps|)))
  }

  /** The filter looks back only, so more signal leaves earlier outputs as they were. */
  lemma {:induction false} FilteredLooksBack(taps: seq<real>, x: seq<Sample>, more: seq<Sample>, i: nat, n: nat)
    requires i < |x| && n <= |taps|
    ensures Filtered(taps, x + more, i, n) == Filtered(taps, x, i, n)
  {
    if n > 0 {
      FilteredLooksBack(taps, x, more, i, n - 1);
    }
  }

  lemma DownsampledPrefix(taps: seq<real>, x: seq<Sample>, more: seq<Sample>)
    ensures Thirds(|x|) <= Thirds(|x + more|)
    ensures Downsampled(taps, x + more)[..Thirds(|x|)] == Downsampled(taps, x)
  {
    forall m | 0 <= m < Thirds(|x|)
      ensures Downsampled(taps, x + more)[m] == Downsampled(taps, x)[m]
    {
      FilteredLooksBack(taps, x, more, 3 * m, |taps|);
    }
  }

  function Zeros(n: nat): seq<Sample> {
    seq(n, _ => 0)
  }

  // ---- what the filter does ------------------------------------------------------

  /** Rounding is to the nearest sample, halves away from zero, and past either end to that end. */
  lemma QuantizeIsNearest(f: real)
    ensures var q := Quantize(f) as real;
            if f >= 32767.5 then q == 32767.0
            else if f <= -32768.5 then q == -32768.0
            else if f >= 0.0 then -0.5 < q - f <= 0.5 else -0.5 <= q - f < 0.5
  {
  }

  /** Silence but for one sample of 1 at p. */
  function Impulse(n: nat, p: nat): seq<Sample> {
    seq<Sample>(n, i => if i == p then 1 else 0)
  }

  /** An impulse comes out as the taps, one after the other, each once. */
  lemma {:induction false} ImpulseGivesTheTaps(taps: seq<real>, len: nat, p: nat, i: nat, n: nat)
    requires i < len && n <= |taps|
    ensures Filtered(taps, Impulse(len, p), i, n) == if p <= i < p + n then taps[i - p] else 0.0
  {
    if n > 0 {
      ImpulseGivesTheTaps(taps, len, p, i, n - 1);
    }
  }

  /** And signals add up: so the filter is the one sum over its taps that does both. */
  lemma {:induction false} SignalsAddUp(taps: seq<real>, x: seq<Sample>, y: seq<Sample>, z: seq<Sample>, i: nat, n: nat)
    requires i < |x| == |y| == |z| && n <= |taps| && forall j :: 0 <= j < |x| ==> z[j] as int == x[j] as int + y[j] as int
    ensures Filtered(taps, z, i, n) == Filtered(taps, x, i, n) + Filtered(taps, y, i, n)
  {
    if n > 0 {
      SignalsAddUp(taps, x, y, z, i, n - 1);
      var t, a, b := taps[n - 1], Heard(x, i - (n - 1)) as real, Heard(y, i - (n - 1)) as real;
      assert Heard(z, i - (n - 1)) as real == a + b;
      assert t * (a + b) == t * a + t * b;
    }
  }

  // ---- the streaming form --------------------------------------------------------

  class Downsampler {
    const taps: seq<real>
    const history: array<Sample>  // as much of the past as a window needs
    var phase: nat                // samples fed, modulo three
    ghost var heard: seq<Sample>  // everything fed so far

    ghost predicate Valid()
      reads this, history
    {
      && |taps| == TAPS && history.Length == TAPS - 1
      && phase == |heard| % FACTOR
      && history[..] == Tail(heard)
    }

    /** The last 62 samples of a signal. */
    static ghost function Tail(x: seq<Sample>): (t: seq<Sample>)
      ensures |t| == TAPS - 1
      ensures forall j :: 0 <= j < TAPS - 1 ==> t[j] == Heard(x, |x| + j - (TAPS - 1))
    {
      seq<Sample>(TAPS - 1, j requires 0 <= j < TAPS - 1 => Heard(x, |x| + j - (TAPS - 1)))
    }

    constructor (taps: seq<real>)
      requires |taps| == TAPS
      ensures Valid() && fresh(history) && this.taps == taps && heard == []
    {
      this.taps, phase, heard := taps, 0, [];
      history := new Sample[TAPS - 1](_ => 0);
      new;
      assert history[..] == Tail([]);
    }

    /** The inner loop over the taps; x is the whole signal, whose last |samples| entries samples are. */
    method Filter(samples: seq<Sample>, i: nat, ghost x: seq<Sample>) returns (filtered: real)
      requires |taps| == TAPS && TAPS - 1 <= i < |samples| <= |x| + TAPS - 1
      requires forall j :: 0 <= j < |samples| ==> samples[j] == Heard(x, |x| - |samples| + j)
      ensures filtered == Filtered(taps, x, |x| - |samples| + i, TAPS)
    {
      filtered := 0.0;
      for k := 0 to TAPS
        invariant filtered == Filtered(taps, x, |x| - |samples| + i, k)
      {
        filtered := filtered + taps[k] * samples[i - k] as real;
      }
    }

    /** copy(d.history, …): the last samples of the signal become the history. */
    method Remember(last: seq<Sample>, ghost x: seq<Sample>)
      requires history.Length == TAPS - 1 == |last|
      requires forall j :: 0 <= j < |last| ==> last[j] == Heard(x, |x| + j - (TAPS - 1))
      modifies history
      ensures history[..] == Tail(x)
    {
      forall j | 0 <= j < history.Length {
        history[j] := last[j];
      }
    }

    method Downsample(pcm: seq<Sample>) returns (out: seq<Sample>)
      requires Valid()
      modifies this, history
      ensures Valid() && heard == old(heard) + pcm
      ensures Downsampled(taps, old(heard)) + out == Downsampled(taps, heard)
    {
      hide Quantize, Filtered;
      var samples := history[..] + pcm;
      var first := history.Length;
      ghost var before, x := |heard|, heard + pcm;
      ghost var whole := Downsampled(taps, x);
      assert forall j :: 0 <= j < |samples| ==> samples[j] == Heard(x, before + j - first);
      out := [];
      DownsampledPrefix(taps, heard, pcm);
      for i := first to |samples|
        invariant heard == old(heard) && history[..] == old(history[..])
        invariant phase == (before + i - first) % FACTOR
        invariant Thirds(before) <= Thirds(before + i - first) <= |whole|
        invariant out == whole[Thirds(before)..Thirds(before + i - first)]
      {
        NextThird(before + i - first);
        if phase == 0 {
          var filtered := Filter(samples, i, x);
          out := out + [Quantize(filtered)];
        }
        phase := (phase + 1) % FACTOR;
        assert Thirds(before + i + 1 - first) <= |whole|;
      }
      Remember(samples[|samples| - first..], x);
      heard := x;
    }
  }

  /** However a signal is split into packets, empty ones and ones shorter than the filter included, the
      outputs put together are the whole signal's, ceil(n / 3) of them. */
  method DownsampleAll(taps: seq<real>, chunks: seq<seq<Sample>>) returns (out: seq<Sample>)
    requires |taps| == TAPS
    ensures out == Downsampled(taps, Flat(chunks))
    ensures |out| == (|Flat(chunks)| + 2) / 3
  {
    var d := new Downsampler(taps);
    out := [];
    for i := 0 to |chunks|
      invariant d.Valid() && fresh(d) && fresh(d.history) && d.taps == taps
      invariant d.heard == Flat(chunks[..i]) && out == Downsampled(taps, d.heard)
    {
      assert chunks[..i + 1][..i] == chunks[..i];
      var more := d.Downsample(chunks[i]);
      out := out + more;
    }
    assert chunks[..|chunks|] == chunks;
  }
}
