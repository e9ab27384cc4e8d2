/** One mixing layer: a reader goroutine cuts a byte stream into frames and pushes them through
    a bounded channel, the mixer polls it and evicts the layer when the channel is closed and
    drained (shared/audio/mixing.go). */
module LayerFraming {
  import opened CircularQueues
  import opened Collections

  type Byte = bv8

  /** The byte stream cut into frames of size bytes, only the last padded with zeros. */
  function Cut(data: seq<Byte>, size: nat): (frames: seq<seq<Byte>>)
    requires 0 < size
    decreases |data|
  {
    if data == [] then []
    else if |data| < size then [data + Zeros(size - |data|)]
    else [data[..size]] + Cut(data[size..], size)
  }

  function Zeros(n: nat): seq<Byte> {
    seq(n, _ => 0)
  }

  /** Where the reader goroutine is: reading, pushing a frame that may be its last, or gone. */
  datatype Reader =
    | Reading
    | Pushing(frame: seq<Byte>, last: bool)
    | Gone

  /** rest is what the source has still to give before EOF; mixed is every frame the mixer took. */
  datatype State = State(
    size: nat,
    room: nat,
    rest: seq<Byte>,
    reader: Reader,
    channel: seq<seq<Byte>>,
    closed: bool,
    cancelled: bool,
    registered: bool,
    mixed: seq<seq<Byte>>)

  function Init(data: seq<Byte>, size: nat, room: nat): State {
    State(size, room, data, Reading, [], false, false, true, [])
  }

  datatype Step =
    | Read
    | Push
    // an unbuffered channel hands over directly, when the mixer is polling
    | HandOver
    | SeeCancel
    | Poll
    | Evict
    | Unregister

  /** The mixer polls a snapshot of the layers, so it may still take a frame of one just unregistered. */
  predicate Enabled(s: State, step: Step) {
    match step
    case Read => s.reader.Reading? && 0 < s.size
    case Push => s.reader.Pushing? && |s.channel| < s.room
    case HandOver => s.reader.Pushing? && s.room == 0 && s.channel == []
    case SeeCancel => s.reader.Pushing? && s.cancelled
    case Poll => s.channel != []
    case Evict => s.registered && s.channel == [] && s.closed
    case Unregister => s.registered
  }

  function Pushed(s: State): State
    requires s.reader.Pushing?
  {
    if s.reader.last then s.(reader := Gone, closed := true) else s.(reader := Reading)
  }

  function Apply(s: State, step: Step): State
    requires Enabled(s, step)
  {
    match step
    case Read =>
      // ReadFull fills the frame, or reports EOF on nothing, or an unexpected EOF part way
      if s.rest == [] then s.(reader := Gone, closed := true)
      else if |s.rest| < s.size then s.(rest := [], reader := Pushing(s.rest + Zeros(s.size - |s.rest|), true))
      else s.(rest := s.rest[s.size..], reader := Pushing(s.rest[..s.size], false))
    case Push => Pushed(s).(channel := s.channel + [s.reader.frame])
    case HandOver => Pushed(s).(mixed := s.mixed + [s.reader.frame])
    case SeeCancel => s.(reader := Gone, closed := true)
    case Poll => s.(channel := s.channel[1..], mixed := s.mixed + [s.channel[0]])
    case Evict => s.(registered := false, cancelled := true)
    case Unregister => s.(registered := false, cancelled := true)
  }

  function Run(start: State, steps: seq<Step>): Option<State> {
    if steps == [] then Some(start)
    else match Run(start, steps[..|steps| - 1])
      case Some(s) => if Enabled(s, steps[|steps| - 1]) then Some(Apply(s, steps[|steps| - 1])) else None
      case None => None
  }

  // ---- the invariant -------------------------------------------------------------

  /** Every frame cut so far: mixed, in the channel, or about to be pushed. */
  function CutSoFar(s: State): seq<seq<Byte>> {
    s.mixed + s.channel + if s.reader.Pushing? then [s.reader.frame] else []
  }

  predicate Inv(s: State, data: seq<Byte>) {
    && 0 < s.size
    && (s.closed <==> s.reader.Gone?)
    && (s.reader.Pushing? && s.reader.last ==> s.rest == [])
    && (s.reader.Gone? && !s.cancelled ==> s.rest == [])
    // nothing is skipped, repeated or reordered; frames go missing only off the end, and only by a cancel
    && s.mixed + s.channel <= Cut(data, s.size)
    && ((s.reader.Gone? && s.cancelled) || CutSoFar(s) + Cut(s.rest, s.size) == Cut(data, s.size))
    // eviction needs a closed channel, so an uncancelled layer leaves only when all is mixed
    && (s.registered ==> !s.cancelled)
  }

  lemma StepKeepsInv(s: State, step: Step, data: seq<Byte>)
    requires Inv(s, data) && Enabled(s, step)
    ensures Inv(Apply(s, step), data)
  {
    var s' := Apply(s, step);
    match step
    case Read => assert CutSoFar(s') + Cut(s'.rest, s.size) == CutSoFar(s) + Cut(s.rest, s.size);
    case Push => assert s'.mixed + s'.channel == CutSoFar(s);
    case HandOver => assert s'.mixed + s'.channel == CutSoFar(s);
    case Poll => assert s'.mixed + s'.channel == s.mixed + s.channel;
    case _ =>
  }

  lemma {:induction false} EveryRunKeepsInv(data: seq<Byte>, size: nat, room: nat, steps: seq<Step>)
    requires 0 < size && Run(Init(data, size, room), steps).Some?
    ensures Inv(Run(Init(data, size, room), steps).value, data)
    ensures Run(Init(data, size, room), steps).value.size == size
    ensures Run(Init(data, size, room), steps).value.room == room
  {
    if steps == [] {
      assert [] + Cut(data, size) == Cut(data, size);
    } else {
      EveryRunKeepsInv(data, size, room, steps[..|steps| - 1]);
      StepKeepsInv(Run(Init(data, size, room), steps[..|steps| - 1]).value, steps[|steps| - 1], data);
    }
  }

  // ---- what framing promises -----------------------------------------------------

  /** In every interleaving of the reader and the mixer, and whenever the layer is unregistered, what
      has been mixed is a prefix of the stream's frames: in order, each exactly once. */
  lemma MixedIsAPrefix(data: seq<Byte>, size: nat, room: nat, steps: seq<Step>)
    requires 0 < size && Run(Init(data, size, room), steps).Some?
    ensures Run(Init(data, size, room), steps).value.mixed <= Cut(data, size)
  {
    EveryRunKeepsInv(data, size, room, steps);
  }

  lemma NothingLeft(size: nat)
    requires 0 < size
    ensures Cut([], size) == []
  {
  }

  lemma {:induction false} OnlyEvictedWhenDrained(data: seq<Byte>, size: nat, room: nat, steps: seq<Step>)
    requires 0 < size && Run(Init(data, size, room), steps).Some? && Unregister !in steps
    ensures var s := Run(Init(data, size, room), steps).value;
            s.registered || (s.reader.Gone? && s.mixed == Cut(data, size))
  {
    if steps != [] {
      var init := steps[..|steps| - 1];
      OnlyEvictedWhenDrained(data, size, room, init);
      EveryRunKeepsInv(data, size, room, init);
      var s := Run(Init(data, size, room), init).value;
      NothingLeft(s.size);
      hide Cut;
      if s.registered && steps[|steps| - 1].Evict? {
        assert CutSoFar(s) + Cut(s.rest, s.size) == s.mixed;
      }
    }
  }

  function Todo(s: State): nat {
    4 * |s.rest| + |s.channel| + (match s.reader case Reading => 1 case Pushing(_, _) => 3 case Gone => 0)
    + if s.registered then 1 else 0
  }

  function Onward(s: State): Step {
    match s.reader
    case Reading => Read
    case Pushing(_, _) => if |s.channel| < s.room then Push else if s.channel != [] then Poll else HandOver
    case Gone => if s.channel != [] then Poll else Evict
  }

  /** A registered layer never jams, for any channel size: some step is enabled, and every enabled step
      but unregistering brings the layer nearer to its eviction. */
  lemma LayerDrains(data: seq<Byte>, size: nat, room: nat, steps: seq<Step>)
    requires 0 < size && Run(Init(data, size, room), steps).Some?
    requires Run(Init(data, size, room), steps).value.registered
    ensures var s := Run(Init(data, size, room), steps).value;
            && Enabled(s, Onward(s)) && Onward(s) != Unregister
            && forall step :: Enabled(s, step) && step != Unregister ==> Todo(Apply(s, step)) < Todo(s)
  {
    EveryRunKeepsInv(data, size, room, steps);
    hide Cut;
  }

  /** An evicted layer is over: its reader is gone and its channel empty. */
  predicate Over(s: State) {
    !s.registered && s.reader.Gone? && s.channel == []
  }

  lemma {:induction false} EvictedIsOver(data: seq<Byte>, size: nat, room: nat, steps: seq<Step>)
    requires 0 < size && Run(Init(data, size, room), steps).Some? && Unregister !in steps
    ensures var s := Run(Init(data, size, room), steps).value; s.registered || Over(s)
  {
    if steps != [] {
      EvictedIsOver(data, size, room, steps[..|steps| - 1]);
      EveryRunKeepsInv(data, size, room, steps[..|steps| - 1]);
      hide Cut;
    }
  }

  /** So a layer nobody unregisters ends, whatever order its steps come in: no run is longer than four
      steps a byte and two, and one that can go no further has mixed every frame. */
  lemma {:induction false} LayerEnds(data: seq<Byte>, size: nat, room: nat, steps: seq<Step>)
    requires 0 < size && Run(Init(data, size, room), steps).Some? && Unregister !in steps
    ensures var s := Run(Init(data, size, room), steps).value;
            && |steps| + Todo(s) <= 4 * |data| + 2
            && ((forall step :: Enabled(s, step) ==> step == Unregister) ==> s.mixed == Cut(data, size))
  {
    var s := Run(Init(data, size, room), steps).value;
    if steps != [] {
      var init := steps[..|steps| - 1];
      LayerEnds(data, size, room, init);
      if Run(Init(data, size, room), init).value.registered {
        LayerDrains(data, size, room, init);
      } else {
        EvictedIsOver(data, size, room, init);
      }
    }
    OnlyEvictedWhenDrained(data, size, room, steps);
    if s.registered {
      LayerDrains(data, size, room, steps);
    }
  }

  // ---- what the frames are -------------------------------------------------------

  /** The frames are the stream: every one is full, and end to end they read as the bytes followed by
      less than one frame of zeros. */
  lemma {:induction false} FramesAreTheStream(data: seq<Byte>, size: nat)
    requires 0 < size
    ensures forall i :: 0 <= i < |Cut(data, size)| ==> |Cut(data, size)[i]| == size
    ensures |data| <= |Flat(Cut(data, size))| < |data| + size
    ensures Flat(Cut(data, size)) == data + Zeros(|Flat(Cut(data, size))| - |data|)
    decreases |data|
  {
    if |data| >= size {
      FramesAreTheStream(data[size..], size);
      var frames, head := Cut(data[size..], size), data[..size];
      hide Flat;
      assert Cut(data, size) == [head] + frames;
      FlatCons(head, frames);
      assert data == head + data[size..];
    } else if data != [] {
      FlatCons(data + Zeros(size - |data|), []);
      assert Cut(data, size) == [data + Zeros(size - |data|)] + [];
    }
  }
}
