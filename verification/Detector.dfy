/** The wake word detector's windows (discord-bot/wake/wake.go): audio in 80 ms steps with a
    lookback, mel frames, embeddings and a score, each over the last so many of the one before.
    The three neural models are functions of their windows. */
module Detectors {
  import opened Collections
  import opened Downsamplers

  const STEP: nat := 1280
  const LOOKBACK: nat := 480
  const MEL_BINS: nat := 32
  const MELS_PER_STEP: nat := 8
  const MEL_WINDOW: nat := 76
  const SCORE_WINDOW: nat := 16

  type Frame = seq<real>

  datatype Model = Model(mel: seq<Sample> -> seq<real>, embedding: Frame -> Frame, head: Frame -> real) {
    /** The mel model's output has a fixed shape. */
    ghost predicate Shaped() {
      forall window :: |mel(window)| == MELS_PER_STEP * MEL_BINS
    }
  }

  // ---- the whole-signal definition -----------------------------------------------

  /** The samples the k-th step looks at: its own, and the 480 before them, silent before the start. */
  function StepWindow(x: seq<Sample>, k: nat): seq<Sample>
    requires STEP * (k + 1) <= |x|
  {
    (Zeros(LOOKBACK) + x)[STEP * k..STEP * k + LOOKBACK + STEP]
  }

  /** The f-th rescaled frame of one mel output. */
  function MelFrame(mel: seq<real>, f: nat): (frame: Frame)
    requires |mel| == MELS_PER_STEP * MEL_BINS && f < MELS_PER_STEP
  {
    seq(MEL_BINS, b requires 0 <= b < MEL_BINS => mel[f * MEL_BINS + b] / 10.0 + 2.0)
  }

  function MelFrames(mel: seq<real>): (frames: seq<Frame>)
    requires |mel| == MELS_PER_STEP * MEL_BINS
    ensures |frames| == MELS_PER_STEP
  {
    seq(MELS_PER_STEP, f requires 0 <= f < MELS_PER_STEP => MelFrame(mel, f))
  }

  function Ones(): (frame: Frame) {
    seq(MEL_BINS, _ => 1.0)
  }

  /** Every mel frame of the first k steps, after the 76 frames of ones it all begins with. */
  ghost function Mels(m: Model, x: seq<Sample>, k: nat): (frames: seq<Frame>)
    requires m.Shaped() && STEP * k <= |x|
    ensures |frames| == MEL_WINDOW + MELS_PER_STEP * k
  {
    if k == 0 then seq(MEL_WINDOW, _ => Ones()) else Mels(m, x, k - 1) + MelFrames(m.mel(StepWindow(x, k - 1)))
  }

  function Last<T>(s: seq<T>, n: nat): (r: seq<T>) {
    if |s| <= n then s else s[|s| - n..]
  }

  /** The embedding of each of the first k steps. */
  ghost function Embeddings(m: Model, x: seq<Sample>, k: nat): (es: seq<Frame>)
    requires m.Shaped() && STEP * k <= |x|
    ensures |es| == k
  {
    if k == 0 then []
    else Embeddings(m, x, k - 1) + [m.embedding(Flat(Last(Mels(m, x, k), MEL_WINDOW)))]
  }

  /** 0 before sixteen full steps, then the head's view of exactly the last sixteen embeddings. */
  ghost function ScoreAfter(m: Model, x: seq<Sample>, k: nat): real
    requires m.Shaped() && STEP * k <= |x|
  {
    if k < SCORE_WINDOW then 0.0 else m.head(Flat(Last(Embeddings(m, x, k), SCORE_WINDOW)))
  }

  ghost function WholeScore(m: Model, x: seq<Sample>): real
    requires m.Shaped()
  {
    ScoreAfter(m, x, |x| / STEP)
  }

  lemma LastOfLast<T>(a: seq<T>, b: seq<T>, n: nat)
    ensures Last(Last(a, n) + b, n) == Last(a + b, n)
  {
  }

  lemma {:induction false} StepsLookBack(m: Model, x: seq<Sample>, more: seq<Sample>, k: nat)
    requires m.Shaped() && STEP * k <= |x|
    ensures Mels(m, x + more, k) == Mels(m, x, k)
    ensures Embeddings(m, x + more, k) == Embeddings(m, x, k)
  {
    if k > 0 {
      StepsLookBack(m, x, more, k - 1);
      assert StepWindow(x + more, k - 1) == StepWindow(x, k - 1);
    }
  }

  /** What a detector holds of signal x after k full steps. */
  ghost predicate HoldsOf(m: Model, x: seq<Sample>, k: nat, lookback: seq<Sample>, mels: seq<Frame>,
                          embeddings: seq<Frame>, score: real)
  {
    && m.Shaped() && STEP * k <= |x|
    && lookback == (Zeros(LOOKBACK) + x)[STEP * k..STEP * k + LOOKBACK]
    && mels == Last(Mels(m, x, k), MEL_WINDOW)
    && embeddings == Last(Embeddings(m, x, k), SCORE_WINDOW)
    && score == ScoreAfter(m, x, k)
  }

  /** Steps already taken do not depend on what is fed later. */
  lemma MoreChangesNothing(m: Model, x: seq<Sample>, more: seq<Sample>, k: nat, lookback: seq<Sample>, mels: seq<Frame>,
                           embeddings: seq<Frame>, score: real)
    requires HoldsOf(m, x, k, lookback, mels, embeddings, score)
    ensures HoldsOf(m, x + more, k, lookback, mels, embeddings, score)
  {
    StepsLookBack(m, x, more, k);
  }

  lemma ScoreHeld(m: Model, x: seq<Sample>, k: nat, lookback: seq<Sample>, mels: seq<Frame>,
                  embeddings: seq<Frame>, score: real)
    requires HoldsOf(m, x, k, lookback, mels, embeddings, score)
    ensures m.Shaped() && STEP * k <= |x| && score == ScoreAfter(m, x, k)
  {
  }

  lemma Slices(x: seq<Sample>, a: nat, n: nat)
    requires a + n <= |x|
    ensures x[a..][..n] == x[a..a + n] && x[a..][n..] == x[a + n..]
  {
  }

  /** The next state from the kept windows alone. */
  lemma StepUnfolds(m: Model, x: seq<Sample>, k: nat)
    requires m.Shaped() && STEP * (k + 1) <= |x|
    ensures Last(Mels(m, x, k + 1), MEL_WINDOW)
            == Last(Last(Mels(m, x, k), MEL_WINDOW) + MelFrames(m.mel(StepWindow(x, k))), MEL_WINDOW)
    ensures |Last(Mels(m, x, k + 1), MEL_WINDOW)| == MEL_WINDOW
    ensures Last(Embeddings(m, x, k + 1), SCORE_WINDOW)
            == Last(Last(Embeddings(m, x, k), SCORE_WINDOW) + [m.embedding(Flat(Last(Mels(m, x, k + 1), MEL_WINDOW)))], SCORE_WINDOW)
    ensures |Last(Embeddings(m, x, k), SCORE_WINDOW)| == if k < SCORE_WINDOW then k else SCORE_WINDOW
    ensures ScoreAfter(m, x, k + 1)
            == if k + 1 < SCORE_WINDOW then 0.0 else m.head(Flat(Last(Embeddings(m, x, k + 1), SCORE_WINDOW)))
    ensures k + 1 < SCORE_WINDOW ==> ScoreAfter(m, x, k) == 0.0
  {
    LastOfLast(Mels(m, x, k), MelFrames(m.mel(StepWindow(x, k))), MEL_WINDOW);
    LastOfLast(Embeddings(m, x, k), [m.embedding(Flat(Last(Mels(m, x, k + 1), MEL_WINDOW)))], SCORE_WINDOW);
  }

  /** Lookback and chunk make the step's window, and its last 480 samples are the next lookback. */
  lemma WindowsMeet(x: seq<Sample>, k: nat)
    requires STEP * (k + 1) <= |x|
    ensures var y, chunk := Zeros(LOOKBACK) + x, x[STEP * k..STEP * (k + 1)];
            && y[STEP * k..STEP * k + LOOKBACK] + chunk == StepWindow(x, k)
            && chunk[STEP - LOOKBACK..] == y[STEP * (k + 1)..STEP * (k + 1) + LOOKBACK]
  {
  }

  // ---- what the windows are ------------------------------------------------------

  /** A step's window is the 1760 samples that end with its own 1280, silent before the signal starts. */
  lemma StepWindowIs(x: seq<Sample>, k: nat, j: nat)
    requires STEP * (k + 1) <= |x| && j < LOOKBACK + STEP
    ensures |StepWindow(x, k)| == LOOKBACK + STEP && StepWindow(x, k)[j] == Heard(x, STEP * k + j - LOOKBACK)
  {
  }

  /** So neighbouring windows overlap by exactly the lookback. */
  lemma WindowsOverlap(x: seq<Sample>, k: nat)
    requires STEP * (k + 2) <= |x|
    ensures StepWindow(x, k + 1)[..LOOKBACK] == StepWindow(x, k)[STEP..]
  {
  }

  /** No value of the mel model's output is lost or moved by the cut into frames, and the rescaling can be
      undone. */
  lemma MelFramesKeepTheMel(mel: seq<real>, i: nat)
    requires |mel| == MELS_PER_STEP * MEL_BINS && i < |mel|
    ensures |Flat(MelFrames(mel))| == |mel| && 10.0 * (Flat(MelFrames(mel))[i] - 2.0) == mel[i]
  {
    var frames := MelFrames(mel);
    assert forall f :: 0 <= f < |frames| ==> |frames[f]| == MEL_BINS;
    FlatAt(frames, MEL_BINS, i / MEL_BINS, i % MEL_BINS);
    FlatLength(frames, MEL_BINS);
    assert i / MEL_BINS * MEL_BINS + i % MEL_BINS == i;
    hide Flat;
  }

  /** The mel frames are 76 of ones and then the frames of each step, in order. */
  lemma {:induction false} MelsAre(m: Model, x: seq<Sample>, k: nat, s: nat)
    requires m.Shaped() && STEP * k <= |x| && s < k
    ensures Mels(m, x, k)[..MEL_WINDOW] == seq(MEL_WINDOW, _ => Ones())
    ensures var at := MEL_WINDOW + MELS_PER_STEP * s;
            Mels(m, x, k)[at..at + MELS_PER_STEP] == MelFrames(m.mel(StepWindow(x, s)))
  {
    hide MelFrames, StepWindow, Ones;
    if s < k - 1 {
      MelsAre(m, x, k - 1, s);
    } else if k > 1 {
      MelsAre(m, x, k - 1, 0);
    }
  }

  lemma {:induction false} MelsGrow(m: Model, x: seq<Sample>, k: nat, s: nat)
    requires m.Shaped() && STEP * k <= |x| && s <= k
    ensures Mels(m, x, s) == Mels(m, x, k)[..MEL_WINDOW + MELS_PER_STEP * s]
  {
    hide MelFrames, StepWindow;
    if s < k {
      MelsGrow(m, x, k - 1, s);
    }
  }

  /** The i-th embedding is of the 76 mel frames that end with its own step's. */
  lemma {:induction false} EmbeddingsAre(m: Model, x: seq<Sample>, k: nat, i: nat)
    requires m.Shaped() && STEP * k <= |x| && i < k
    ensures var at := MELS_PER_STEP * (i + 1);
            Embeddings(m, x, k)[i] == m.embedding(Flat(Mels(m, x, k)[at..at + MEL_WINDOW]))
  {
    MelsGrow(m, x, k, i + 1);
    EmbeddingsGrow(m, x, k, i);
    hide Mels, Flat;
    var at := MELS_PER_STEP * (i + 1);
    assert Last(Mels(m, x, i + 1), MEL_WINDOW) == Mels(m, x, k)[at..at + MEL_WINDOW];
  }

  lemma {:induction false} EmbeddingsGrow(m: Model, x: seq<Sample>, k: nat, i: nat)
    requires m.Shaped() && STEP * k <= |x| && i < k
    ensures Embeddings(m, x, k)[i] == m.embedding(Flat(Last(Mels(m, x, i + 1), MEL_WINDOW)))
  {
    hide Mels, Flat;
    if i < k - 1 {
      EmbeddingsGrow(m, x, k - 1, i);
    }
  }

  /** And the score is 0 before sixteen full steps, then the head of the sixteen embeddings that end with the
      last full step's. */
  lemma WholeScoreIs(m: Model, x: seq<Sample>)
    requires m.Shaped()
    ensures var k := |x| / STEP;
            WholeScore(m, x) == if |x| < STEP * SCORE_WINDOW then 0.0
                                else m.head(Flat(Embeddings(m, x, k)[k - SCORE_WINDOW..k]))
  {
    hide Mels, Flat, Embeddings;
    var k := |x| / STEP;
    assert |x| < STEP * SCORE_WINDOW <==> k < SCORE_WINDOW;
    if k >= SCORE_WINDOW {
      assert Last(Embeddings(m, x, k), SCORE_WINDOW) == Embeddings(m, x, k)[k - SCORE_WINDOW..k];
    }
  }

  // ---- the streaming form --------------------------------------------------------

  class Detector {
    const model: Model
    var pending: seq<Sample>         // heard since the last step
    const lookback: array<Sample>    // the last 480 samples of the previous step
    var mels: seq<Frame>             // newest last
    var embeddings: seq<Frame>       // newest last
    var score: real
    ghost var heard: seq<Sample>     // everything fed so far

    /** The state is that of the whole signal after k full steps. */
    ghost predicate StateAfter(k: nat)
      reads this, lookback
    {
      lookback.Length == LOOKBACK && HoldsOf(model, heard, k, lookback[..], mels, embeddings, score)
    }

    ghost predicate Valid()
      reads this, lookback
    {
      StateAfter(|heard| / STEP) && pending == heard[|heard| / STEP * STEP..]
    }

    constructor (model: Model)
      requires model.Shaped()
      ensures Valid() && fresh(lookback) && this.model == model && heard == []
    {
      this.model := model;
      pending, embeddings, score, heard := [], [], 0.0, [];
      lookback := new Sample[LOOKBACK](_ => 0);
      mels := seq(MEL_WINDOW, _ => Ones());
      new;
      assert lookback[..] == Zeros(LOOKBACK) + [];
    }

    /** Between calls exactly 76 mel frames and at most 16 embeddings are held. */
    lemma HoldsItsWindows()
      requires Valid()
      ensures |pending| < STEP && |mels| == MEL_WINDOW
      ensures |embeddings| == if |heard| / STEP < SCORE_WINDOW then |heard| / STEP else SCORE_WINDOW
      ensures |heard| / STEP < SCORE_WINDOW ==> score == 0.0
    {
    }

    method Feed(pcm: seq<Sample>) returns (newest: real)
      requires Valid()
      modifies this, lookback
      ensures Valid() && heard == old(heard) + pcm
      ensures model.Shaped() && newest == WholeScore(model, heard)
      ensures |pending| < STEP
    {
      hide HoldsOf;
      ghost var k: nat := |heard| / STEP;
      MoreChangesNothing(model, heard, pcm, k, lookback[..], mels, embeddings, score);
      pending := pending + pcm;
      heard := heard + pcm;
      while |pending| >= STEP
        invariant heard == old(heard) + pcm && STEP * k <= |heard|
        invariant StateAfter(k) && pending == heard[STEP * k..]
      {
        Slices(heard, STEP * k, STEP);
        Step(pending[..STEP], k);
        pending := pending[STEP..];
        k := k + 1;
      }
      assert k == |heard| / STEP;
      ScoreHeld(model, heard, k, lookback[..], mels, embeddings, score);
      return score;
    }

    method Step(chunk: seq<Sample>, ghost k: nat)
      requires STEP * (k + 1) <= |heard| && StateAfter(k) && chunk == heard[STEP * k..STEP * (k + 1)]
      modifies this, lookback
      ensures StateAfter(k + 1)
      ensures pending == old(pending) && heard == old(heard)
    {
      hide MelFrames, StepWindow, Flat, Mels, Embeddings, ScoreAfter;
      WindowsMeet(heard, k);
      StepUnfolds(model, heard, k);
      var input := lookback[..] + chunk;
      var last := chunk[STEP - LOOKBACK..];
      forall j | 0 <= j < LOOKBACK {
        lookback[j] := last[j];
      }
      assert lookback[..] == last;

      AppendMels(model.mel(input));
      mels := mels[|mels| - MEL_WINDOW..];
      var window := Concat(mels);
      var embedding := model.embedding(window);
      embeddings := embeddings + [embedding];
      if |embeddings| < SCORE_WINDOW {
        return;
      }
      embeddings := embeddings[|embeddings| - SCORE_WINDOW..];
      var features := Concat(embeddings);
      score := model.head(features);
    }

    method AppendMels(mel: seq<real>)
      requires |mel| == MELS_PER_STEP * MEL_BINS
      modifies this`mels
      ensures mels == old(mels) + MelFrames(mel)
    {
      for f := 0 to MELS_PER_STEP
        invariant mels == old(mels) + MelFrames(mel)[..f]
      {
        var frame: Frame := [];
        for b := 0 to MEL_BINS
          invariant frame == MelFrame(mel, f)[..b]
        {
          frame := frame + [mel[f * MEL_BINS + b] / 10.0 + 2.0];
        }
        assert frame == MelFrame(mel, f);
        mels := mels + [frame];
      }
    }
  }

  method Concat(frames: seq<Frame>) returns (flat: Frame)
    ensures flat == Flat(frames)
  {
    flat := [];
    for i := 0 to |frames|
      invariant flat == Flat(frames[..i])
    {
      assert frames[..i + 1][..i] == frames[..i];
      flat := flat + frames[i];
    }
    assert frames[..|frames|] == frames;
  }

  /** However audio is split, the score is the whole signal's. */
  method FeedAll(model: Model, chunks: seq<seq<Sample>>) returns (score: real)
    requires model.Shaped()
    ensures score == WholeScore(model, Flat(chunks))
  {
    var d := new Detector(model);
    score := 0.0;
    for i := 0 to |chunks|
      invariant d.Valid() && fresh(d) && fresh(d.lookback) && d.model == model
      invariant d.heard == Flat(chunks[..i]) && score == WholeScore(model, d.heard)
    {
      assert chunks[..i + 1][..i] == chunks[..i];
      score := d.Feed(chunks[i]);
    }
    assert chunks[..|chunks|] == chunks;
  }
}
