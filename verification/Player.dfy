/** The music player's one-driver protocol (discord-bot/music/player.go) over mixer layer 0
    (shared/audio/mixing.go). A driver is one goroutine running start, or one watching the
    layer start registered; every lock-held block is a step, and a block that touches an object
    with its own lock is split there. */
module Players {
  import opened CircularQueues
  import opened Collections

  type Song = nat

  /** A Queue call: early check, search, then the queue lock, then the start lock. */
  datatype CallerPc =
    | Entered
    | Searching
    | Found(song: Song)
    | Checked(song: Song)
    | Queued
    | Finished

  /** A goroutine that drives playback: start waiting for the lock, start holding it, the watcher. */
  datatype DriverPc =
    | Pending
    | Locked
    | FoundNothing
    | Took(song: Song)
    | Opened(song: Song, layer: nat)
    | Watching(layer: nat)
    | Gone
  {
    predicate Live() { !Gone? }
    predicate Holds() { Locked? || FoundNothing? || Took? || Opened? }
  }

  /** accepted and taken are the songs enqueued and dequeued so far, dropped those an enqueue evicted. */
  datatype State = State(
    capacity: nat,
    queue: seq<Song>,
    callers: seq<CallerPc>,
    qlock: Option<nat>,
    drivers: seq<DriverPc>,
    slock: Option<nat>,
    started: bool,
    // the mixer: what is registered under id 0, whose contexts are cancelled, its write lock
    layer: Option<nat>,
    cancelled: set<nat>,
    unregistering: bool,
    nextLayer: nat,
    accepted: seq<Song>,
    taken: seq<Song>,
    dropped: seq<Song>)

  function Init(capacity: nat): State {
    State(capacity, [], [], None, [], None, false, None, {}, false, 0, [], [], [])
  }

  datatype Step =
    // Queue
    | Call
    | EarlyCheck(caller: nat)
    | SearchDone(caller: nat, song: Option<Song>)
    | LockQueue(caller: nat)
    | AddSong(caller: nat)
    | Start(caller: nat)
    // start and its watcher
    | LockStart(driver: nat)
    | TakeSong(driver: nat)
    | GiveUp(driver: nat)
    | OpenPipe(driver: nat, ok: bool)
    | Register(driver: nat)
    | Wake(driver: nat)
    // Stop draining the queue
    | Drain
    // Unregister(0), CloseLayers or the mixer's eviction: cancel then delete, under the mixer's lock
    | Cancel
    | Delete

  predicate CallerAt(s: State, c: nat) { c < |s.callers| }
  predicate DriverAt(s: State, d: nat) { d < |s.drivers| }

  predicate Enabled(s: State, step: Step) {
    match step
    case Call => true
    case EarlyCheck(c) => CallerAt(s, c) && s.callers[c].Entered?
    case SearchDone(c, _) => CallerAt(s, c) && s.callers[c].Searching?
    case LockQueue(c) => CallerAt(s, c) && s.callers[c].Found? && s.qlock == None
    case AddSong(c) => CallerAt(s, c) && s.callers[c].Checked? && 0 < s.capacity
    case Start(c) => CallerAt(s, c) && s.callers[c].Queued? && s.slock == None
    case LockStart(d) => DriverAt(s, d) && s.drivers[d].Pending? && s.slock == None
    case TakeSong(d) => DriverAt(s, d) && s.drivers[d].Locked?
    case GiveUp(d) => DriverAt(s, d) && s.drivers[d].FoundNothing?
    case OpenPipe(d, _) => DriverAt(s, d) && s.drivers[d].Took?
    case Register(d) => DriverAt(s, d) && s.drivers[d].Opened? && !s.unregistering
    case Wake(d) => DriverAt(s, d) && s.drivers[d].Watching? && s.drivers[d].layer in s.cancelled
    case Drain => true
    case Cancel => s.layer.Some? && !s.unregistering
    case Delete => s.unregistering
  }

  function SetCaller(s: State, c: nat, pc: CallerPc): State
    requires c < |s.callers|
  {
    s.(callers := s.callers[c := pc])
  }

  function SetDriver(s: State, d: nat, pc: DriverPc): State
    requires d < |s.drivers|
  {
    s.(drivers := s.drivers[d := pc])
  }

  /** Takes the oldest song off the queue, if there is one. */
  function Pop(s: State): (r: State)
    ensures r == s.(queue := r.queue, taken := r.taken)
  {
    if s.queue == [] then s else s.(queue := s.queue[1..], taken := s.taken + [s.queue[0]])
  }

  function Apply(s: State, step: Step): State
    requires Enabled(s, step)
  {
    match step
    case Call => s.(callers := s.callers + [Entered])
    case EarlyCheck(c) => SetCaller(s, c, if |s.queue| >= s.capacity then Finished else Searching)
    case SearchDone(c, song) => SetCaller(s, c, if song.Some? then Found(song.value) else Finished)
    case LockQueue(c) =>
      if |s.queue| >= s.capacity then SetCaller(s, c, Finished)
      else SetCaller(s, c, Checked(s.callers[c].song)).(qlock := Some(c))
    case AddSong(c) =>
      var song := s.callers[c].song;
      SetCaller(s, c, Queued).(queue := Pushed(s.queue, s.capacity, song), qlock := None, accepted := s.accepted + [song],
        dropped := s.dropped + if |s.queue| == s.capacity then [s.queue[0]] else [])
    case Start(c) =>
      SetCaller(s, c, Finished).(drivers := if s.started then s.drivers else s.drivers + [Pending], started := true)
    case LockStart(d) => SetDriver(s, d, Locked).(slock := Some(d))
    case TakeSong(d) =>
      Pop(SetDriver(s, d, if s.queue == [] then FoundNothing else Took(s.queue[0])))
    case GiveUp(d) => SetDriver(s, d, Gone).(started := false, slock := None)
    case OpenPipe(d, ok) =>
      if ok then SetDriver(s, d, Opened(s.drivers[d].song, s.nextLayer)).(nextLayer := s.nextLayer + 1)
      else Respawn(s, d).(slock := None)
    case Register(d) =>
      if s.layer.Some? then Respawn(s, d).(slock := None)
      else SetDriver(s, d, Watching(s.drivers[d].layer)).(layer := Some(s.drivers[d].layer), slock := None)
    case Wake(d) => Respawn(s, d)
    case Drain => Pop(s)
    case Cancel => s.(cancelled := s.cancelled + {s.layer.value}, unregistering := true)
    case Delete => s.(layer := None, unregistering := false)
  }

  /** This goroutine ends with go p.start(). */
  function Respawn(s: State, d: nat): State
    requires d < |s.drivers|
  {
    SetDriver(s, d, Gone).(drivers := s.drivers[d := Gone] + [Pending])
  }

  function Run(capacity: nat, steps: seq<Step>): Option<State> {
    if steps == [] then Some(Init(capacity))
    else match Run(capacity, steps[..|steps| - 1])
      case Some(s) => if Enabled(s, steps[|steps| - 1]) then Some(Apply(s, steps[|steps| - 1])) else None
      case None => None
  }

  // ---- the invariant -------------------------------------------------------------

  /** started exactly when some driver lives, and never two. */
  predicate OneDriver(s: State) {
    && (forall d, e :: 0 <= d < |s.drivers| && 0 <= e < |s.drivers| && s.drivers[d].Live() && s.drivers[e].Live() ==> d == e)
    && (s.started <==> exists d :: 0 <= d < |s.drivers| && s.drivers[d].Live())
  }

  predicate StartLockOk(s: State) {
    && (forall d :: 0 <= d < |s.drivers| ==> (s.drivers[d].Holds() <==> s.slock == Some(d)))
    && (s.slock.Some? ==> s.slock.value < |s.drivers|)
  }

  predicate QueueLockOk(s: State) {
    && (forall c :: 0 <= c < |s.callers| ==> (s.callers[c].Checked? <==> s.qlock == Some(c)))
    && (s.qlock.Some? ==> s.qlock.value < |s.callers|)
  }

  /** The lock kept across the fullness check makes the check still true at the enqueue. */
  predicate QueueOk(s: State) {
    && |s.queue| <= s.capacity
    && (s.qlock.Some? ==> |s.queue| < s.capacity)
    && s.dropped == []
    && s.accepted == s.taken + s.queue
  }

  predicate CallerComing(s: State) {
    exists c :: 0 <= c < |s.callers| && s.callers[c].Queued?
  }

  predicate DriverComing(s: State) {
    exists d :: 0 <= d < |s.drivers| && s.drivers[d].Live() && !s.drivers[d].FoundNothing?
  }

  /** A song in the queue has a driver that will look again, or a Queue call about to start one. */
  predicate NotStranded(s: State) {
    s.queue != [] ==> CallerComing(s) || DriverComing(s)
  }

  /** Layer 0 is the live watcher's layer; it outlives the watcher's wait only inside Unregister. */
  predicate LayerOk(s: State) {
    && (s.unregistering ==> s.layer.Some? && s.layer.value in s.cancelled)
    && (s.layer.Some? && !s.unregistering ==>
          s.layer.value !in s.cancelled && exists d :: 0 <= d < |s.drivers| && s.drivers[d] == Watching(s.layer.value))
    && (forall d :: 0 <= d < |s.drivers| && s.drivers[d].Watching? ==>
          s.drivers[d].layer in s.cancelled || s.layer == Some(s.drivers[d].layer))
    && (forall d :: 0 <= d < |s.drivers| && s.drivers[d].Opened? ==>
          s.drivers[d].layer < s.nextLayer && s.drivers[d].layer !in s.cancelled && s.layer != Some(s.drivers[d].layer))
    && (forall l :: l in s.cancelled ==> l < s.nextLayer)
    && (s.layer.Some? ==> s.layer.value < s.nextLayer)
  }

  predicate Inv(s: State) {
    0 < s.capacity && OneDriver(s) && StartLockOk(s) && QueueLockOk(s) && QueueOk(s) && NotStranded(s) && LayerOk(s)
  }

  /** A live driver stays live, or hands over to the goroutine it starts, or gives up. */
  lemma DriverGoesOn(s: State, step: Step, d: nat)
    requires Enabled(s, step) && d < |s.drivers| && s.drivers[d].Live() && step != GiveUp(d)
    ensures var s' := Apply(s, step);
            && |s.drivers| <= |s'.drivers|
            && (s'.drivers[d].Live() || (|s'.drivers| == |s.drivers| + 1 && s'.drivers[|s.drivers|] == Pending))
  {
  }

  lemma StepKeepsOneDriver(s: State, step: Step)
    requires Inv(s) && Enabled(s, step)
    ensures OneDriver(Apply(s, step))
  {
    if d :| 0 <= d < |s.drivers| && s.drivers[d].Live() {
      OneDriverGoesOn(s, step, d);
    } else {
      hide StartLockOk, QueueLockOk, QueueOk, NotStranded, LayerOk, Pushed, Pop;
      var s' := Apply(s, step);
      if step.Start? {
        assert s'.drivers[|s.drivers|].Live();
      } else {
        assert s'.drivers == s.drivers;
      }
    }
  }

  lemma OneDriverGoesOn(s: State, step: Step, d: nat)
    requires OneDriver(s) && Enabled(s, step) && d < |s.drivers| && s.drivers[d].Live()
    ensures OneDriver(Apply(s, step))
  {
    hide Pushed, Pop;
    var s' := Apply(s, step);
    OthersStayGone(s, step, d);
    if step != GiveUp(d) {
      DriverGoesOn(s, step, d);
      assert s'.drivers[d].Live() || s'.drivers[|s'.drivers| - 1].Live();
    }
    hide Apply, Enabled;
  }

  lemma OthersStayGone(s: State, step: Step, d: nat)
    requires OneDriver(s) && Enabled(s, step) && d < |s.drivers| && s.drivers[d].Live()
    ensures var s' := Apply(s, step);
            && (forall e :: 0 <= e < |s'.drivers| && s'.drivers[e].Live() ==> e == d || e == |s.drivers|)
            && (|s.drivers| < |s'.drivers| ==> !s'.drivers[d].Live())
            && (s'.started <==> step != GiveUp(d)) && (step == GiveUp(d) ==> !s'.drivers[d].Live() && |s'.drivers| == |s.drivers|)
  {
    hide Pushed, Pop;
  }

  lemma StepKeepsLocks(s: State, step: Step)
    requires StartLockOk(s) && Enabled(s, step)
    ensures StartLockOk(Apply(s, step))
  {
  }

  lemma StepKeepsQueueLock(s: State, step: Step)
    requires QueueLockOk(s) && Enabled(s, step)
    ensures QueueLockOk(Apply(s, step))
  {
  }

  lemma StepKeepsQueue(s: State, step: Step)
    requires 0 < s.capacity && QueueLockOk(s) && QueueOk(s) && Enabled(s, step)
    ensures QueueOk(Apply(s, step))
  {
    if step.TakeSong? || step.Drain? {
      PopKeepsQueue(s, step);
    } else if step.AddSong? || step.LockQueue? {
      AddKeepsQueue(s, step);
    } else {
      hide QueueLockOk, Pushed, Pop;
    }
  }

  lemma PopKeepsQueue(s: State, step: Step)
    requires QueueOk(s) && Enabled(s, step) && (step.TakeSong? || step.Drain?)
    ensures QueueOk(Apply(s, step))
  {
    if s.queue != [] {
      assert s.accepted == s.taken + [s.queue[0]] + s.queue[1..];
    }
  }

  lemma AddKeepsQueue(s: State, step: Step)
    requires 0 < s.capacity && QueueLockOk(s) && QueueOk(s) && Enabled(s, step) && (step.AddSong? || step.LockQueue?)
    ensures QueueOk(Apply(s, step))
  {
    if step.AddSong? {
      assert s.qlock == Some(step.caller);
    }
  }

  /** Start finds the lock free, so no driver is between seeing an empty queue and saying so. */
  lemma StartLeavesADriver(s: State, c: nat)
    requires Inv(s) && Enabled(s, Start(c))
    ensures DriverComing(Apply(s, Start(c)))
  {
    var s' := Apply(s, Start(c));
    if s.started {
      var d :| 0 <= d < |s.drivers| && s.drivers[d].Live();
      assert s'.drivers[d].Live() && !s'.drivers[d].FoundNothing?;
    } else {
      assert s'.drivers[|s.drivers|].Live() && s'.drivers[|s.drivers|] == Pending;
    }
  }

  lemma StepKeepsNotStranded(s: State, step: Step)
    requires Inv(s) && Enabled(s, step)
    ensures NotStranded(Apply(s, step))
  {
    hide OneDriver, StartLockOk, QueueLockOk, QueueOk, LayerOk, Pushed;
    var s' := Apply(s, step);
    if step.Start? {
      StartLeavesADriver(s, step.caller);
    } else if step.AddSong? {
      assert s'.callers[step.caller].Queued?;
    } else if s'.queue != [] {
      if CallerComing(s) {
        var c :| 0 <= c < |s.callers| && s.callers[c].Queued?;
        assert s'.callers[c].Queued?;
      } else {
        var d :| 0 <= d < |s.drivers| && s.drivers[d].Live() && !s.drivers[d].FoundNothing?;
        DriverGoesOn(s, step, d);
        assert (s'.drivers[d].Live() && !s'.drivers[d].FoundNothing?) || s'.drivers[|s'.drivers| - 1].Live();
      }
    }
  }

  lemma OtherStepKeepsLayer(s: State, step: Step)
    requires LayerOk(s) && Enabled(s, step)
    requires !(step.Register? || step.Cancel? || step.Delete? || step.OpenPipe? || step.Wake?)
    ensures LayerOk(Apply(s, step))
  {
    hide Pushed;
    var s' := Apply(s, step);
    if s.layer.Some? && !s.unregistering {
      var d :| 0 <= d < |s.drivers| && s.drivers[d] == Watching(s.layer.value);
      assert s'.drivers[d] == Watching(s.layer.value);
    }
  }

  lemma StepKeepsLayer(s: State, step: Step)
    requires Inv(s) && Enabled(s, step)
    ensures LayerOk(Apply(s, step))
  {
    hide QueueOk, NotStranded, StartLockOk, QueueLockOk, Pushed;
    var s' := Apply(s, step);
    if !(step.Register? || step.Cancel? || step.Delete? || step.OpenPipe? || step.Wake?) {
      OtherStepKeepsLayer(s, step);
      return;
    }
    if s.layer.Some? && !s.unregistering {
      var d :| 0 <= d < |s.drivers| && s.drivers[d] == Watching(s.layer.value);
      assert s'.drivers[d] == Watching(s.layer.value);
    }
    if step.Register? && s.layer == None {
      assert s'.drivers[step.driver] == Watching(s'.layer.value);
      assert forall e :: 0 <= e < |s.drivers| && s.drivers[e].Live() ==> e == step.driver;
    }
  }

  lemma {:induction false} EveryRunKeepsInv(capacity: nat, steps: seq<Step>)
    requires 0 < capacity && Run(capacity, steps).Some?
    ensures Inv(Run(capacity, steps).value)
  {
    if steps != [] {
      var s, step := Run(capacity, steps[..|steps| - 1]).value, steps[|steps| - 1];
      EveryRunKeepsInv(capacity, steps[..|steps| - 1]);
      StepKeepsOneDriver(s, step);
      StepKeepsLocks(s, step);
      StepKeepsQueueLock(s, step);
      StepKeepsQueue(s, step);
      StepKeepsNotStranded(s, step);
      StepKeepsLayer(s, step);
    }
  }

  ghost predicate Reachable(s: State) {
    exists capacity: nat, steps :: 0 < capacity && Run(capacity, steps) == Some(s)
  }

  /** The invariant holds after every run, for any number of Queue calls and any interleaving. */
  lemma ReachableInv(s: State)
    requires Reachable(s)
    ensures Inv(s)
  {
    var capacity: nat, steps :| 0 < capacity && Run(capacity, steps) == Some(s);
    EveryRunKeepsInv(capacity, steps);
  }

  // ---- what the protocol promises ------------------------------------------------

  /** started means one driver, and there is never a second. */
  lemma StartedMeansOneDriver(s: State)
    requires Reachable(s)
    ensures s.started <==> exists d :: 0 <= d < |s.drivers| && s.drivers[d].Live()
    ensures forall d, e :: 0 <= d < |s.drivers| && 0 <= e < |s.drivers| && s.drivers[d].Live() && s.drivers[e].Live() ==> d == e
  {
    ReachableInv(s);
  }

  /** Register(0, ...) never finds the layer taken, so no song is lost to that error branch. */
  lemma RegisterFindsLayerFree(s: State, d: nat)
    requires Reachable(s) && Enabled(s, Register(d))
    ensures s.layer == None
    ensures Apply(s, Register(d)).drivers[d] == Watching(s.drivers[d].layer)
  {
    ReachableInv(s);
  }

  /** An accepted song is never evicted by a later one: songs leave in the order they were accepted,
      and only because a driver or a Stop took them. */
  lemma AcceptedSongsKeepTheirPlace(s: State)
    requires Reachable(s)
    ensures s.dropped == [] && s.accepted == s.taken + s.queue && |s.queue| <= s.capacity
  {
    ReachableInv(s);
  }

  predicate DriverStep(step: Step) {
    step.LockStart? || step.TakeSong? || step.GiveUp? || step.OpenPipe? || step.Register? || step.Wake?
  }

  /** Nothing is left to do but for a new call to come, a caller to stop the music, or a layer to end. */
  ghost predicate Idle(s: State) {
    && (forall c :: 0 <= c < |s.callers| ==> s.callers[c].Finished?)
    && (forall step :: DriverStep(step) ==> !Enabled(s, step))
    && !s.unregistering
  }

  /** No song is stranded: when everything has settled, either the queue is empty and the player
      stopped, or layer 0 is playing with its watcher waiting for it to end. */
  lemma NoSongIsStranded(s: State)
    requires Reachable(s) && Idle(s)
    ensures if s.started then s.layer.Some? && s.layer.value !in s.cancelled
                              && exists d :: 0 <= d < |s.drivers| && s.drivers[d] == Watching(s.layer.value)
            else s.queue == [] && s.layer == None
  {
    ReachableInv(s);
    if s.started {
      var d :| 0 <= d < |s.drivers| && s.drivers[d].Live();
      IdleDriverWatches(s, d);
    } else {
      assert forall d :: 0 <= d < |s.drivers| ==> s.drivers[d].Gone?;
    }
  }

  lemma IdleDriverWatches(s: State, d: nat)
    requires Inv(s) && Idle(s) && d < |s.drivers| && s.drivers[d].Live()
    ensures s.drivers[d].Watching? && s.drivers[d].layer !in s.cancelled
  {
    hide QueueOk, NotStranded, LayerOk;
    assert !Enabled(s, LockStart(d)) && !Enabled(s, TakeSong(d)) && !Enabled(s, GiveUp(d));
    assert !Enabled(s, OpenPipe(d, true)) && !Enabled(s, Register(d)) && !Enabled(s, Wake(d));
  }

  /** Stop or Skip never strands the driver either: a watcher whose layer is gone has been woken. */
  lemma WatcherIsNeverForgotten(s: State, d: nat)
    requires Reachable(s) && d < |s.drivers| && s.drivers[d].Watching?
    ensures Enabled(s, Wake(d)) || s.layer == Some(s.drivers[d].layer)
  {
    ReachableInv(s);
  }

  // ---- that all settles ----------------------------------------------------------

  /** What other goroutines may do at any time: call Queue, drain the queue, end the layer. */
  predicate FromOutside(step: Step) {
    step.Call? || step.Drain? || step.Cancel?
  }

  /** All has settled exactly when nothing is left to happen but from outside. */
  lemma IdleExactly(s: State)
    requires Reachable(s)
    ensures Idle(s) <==> forall step :: Enabled(s, step) ==> FromOutside(step)
  {
    ReachableInv(s);
    if forall step :: Enabled(s, step) ==> FromOutside(step) {
      if s.qlock.Some? || s.slock.Some? {
        var step := HolderGoesOn(s);
      }
      assert s.unregistering ==> Enabled(s, Delete);
      forall c | 0 <= c < |s.callers| ensures s.callers[c].Finished? {
        assert !Enabled(s, EarlyCheck(c)) && !Enabled(s, SearchDone(c, None)) && !Enabled(s, LockQueue(c));
        assert !Enabled(s, AddSong(c)) && !Enabled(s, Start(c));
      }
    }
  }

  /** What the holder of a lock does next. */
  lemma HolderGoesOn(s: State) returns (step: Step)
    requires Inv(s) && (s.qlock.Some? || s.slock.Some?)
    ensures Enabled(s, step) && !FromOutside(step)
  {
    hide OneDriver, QueueOk, NotStranded, LayerOk;
    if s.qlock.Some? {
      step := AddSong(s.qlock.value);
    } else {
      var d := s.slock.value;
      assert s.drivers[d].Holds();
      match s.drivers[d]
      case Locked => step := TakeSong(d);
      case FoundNothing => step := GiveUp(d);
      case Took(_) => step := OpenPipe(d, true);
      case _ => step := if s.unregistering then Delete else Register(d);
    }
  }

  function CallerWork(pc: CallerPc): nat {
    match pc
    case Entered => 13
    case Searching => 12
    case Found(_) => 11
    case Checked(_) => 10
    case Queued => 4
    case Finished => 0
  }

  /** A driver has the more to do the further it is from watching a layer that plays. */
  function DriverWork(cancelled: set<nat>): DriverPc -> nat {
    (pc: DriverPc) =>
      match pc
      case Pending => 3
      case Locked => 2
      case FoundNothing => 1
      case Took(_) => 6
      case Opened(_, _) => 5
      case Watching(layer) => if layer in cancelled then 4 else 0
      case Gone => 0
  }

  /** What is left to be done before all has settled. */
  function Work(s: State): nat {
    Total(s.callers, CallerWork) + Total(s.drivers, DriverWork(s.cancelled)) + 5 * |s.queue| + if s.unregistering then 1 else 0
  }

  lemma CallerWorks(s: State, c: nat, pc: CallerPc)
    requires c < |s.callers|
    ensures Total(s.callers[c := pc], CallerWork) + CallerWork(s.callers[c]) == Total(s.callers, CallerWork) + CallerWork(pc)
  {
    TotalUpdate(s.callers, c, pc, CallerWork);
  }

  lemma DriverWorks(s: State, d: nat, pc: DriverPc)
    requires d < |s.drivers|
    ensures var work := DriverWork(s.cancelled);
            && Total(s.drivers[d := pc], work) + work(s.drivers[d]) == Total(s.drivers, work) + work(pc)
            && Total(s.drivers[d := pc] + [Pending], work) == Total(s.drivers[d := pc], work) + 3
            && Total(s.drivers + [Pending], work) == Total(s.drivers, work) + 3
  {
    var work := DriverWork(s.cancelled);
    TotalUpdate(s.drivers, d, pc, work);
    TotalOneMore(s.drivers[d := pc], Pending, work);
    TotalOneMore(s.drivers, Pending, work);
  }

  lemma CallerStepWorks(s: State, step: Step)
    requires QueueLockOk(s) && QueueOk(s) && Enabled(s, step)
    requires step.EarlyCheck? || step.SearchDone? || step.LockQueue? || step.AddSong? || step.Start?
    ensures Work(Apply(s, step)) < Work(s)
  {
    CallerWorks(s, step.caller, Apply(s, step).callers[step.caller]);
    if step.Start? && !s.started {
      TotalOneMore(s.drivers, Pending, DriverWork(s.cancelled));
    }
    hide Total;
  }

  lemma TakingWorks(s: State, step: Step)
    requires Enabled(s, step) && (step.LockStart? || step.TakeSong? || step.GiveUp?)
    ensures Work(Apply(s, step)) < Work(s)
  {
    DriverWorks(s, step.driver, Apply(s, step).drivers[step.driver]);
    hide Total;
  }

  lemma OpeningWorks(s: State, d: nat, ok: bool)
    requires Enabled(s, OpenPipe(d, ok))
    ensures Work(Apply(s, OpenPipe(d, ok))) < Work(s)
  {
    hide Total, Respawn;
    if ok {
      DriverWorks(s, d, Opened(s.drivers[d].song, s.nextLayer));
    } else {
      RespawnWorks(s, d);
    }
  }

  lemma RegisteringWorks(s: State, d: nat)
    requires LayerOk(s) && Enabled(s, Register(d))
    ensures Work(Apply(s, Register(d))) < Work(s)
  {
    assert s.drivers[d].layer !in s.cancelled;
    hide LayerOk;
    if s.layer.Some? {
      RegisterFails(s, d);
    } else {
      RegisterWorks(s, d);
    }
  }

  lemma RegisterFails(s: State, d: nat)
    requires Enabled(s, Register(d)) && s.layer.Some?
    ensures Work(Apply(s, Register(d))) < Work(s)
  {
    hide Total, Respawn;
    RespawnWorks(s, d);
  }

  lemma RegisterWorks(s: State, d: nat)
    requires Enabled(s, Register(d)) && s.layer == None && s.drivers[d].layer !in s.cancelled
    ensures Work(Apply(s, Register(d))) < Work(s)
  {
    hide Total, Respawn;
    DriverWorks(s, d, Watching(s.drivers[d].layer));
  }

  lemma WakingWorks(s: State, d: nat)
    requires Enabled(s, Wake(d))
    ensures Work(Apply(s, Wake(d))) < Work(s)
  {
    RespawnWorks(s, d);
    hide Total, Respawn;
  }

  lemma RespawnWorks(s: State, d: nat)
    requires d < |s.drivers|
    ensures var work := DriverWork(s.cancelled);
            && Total(Respawn(s, d).drivers, work) + work(s.drivers[d]) == Total(s.drivers, work) + 3
            && Respawn(s, d) == s.(drivers := Respawn(s, d).drivers)
  {
    DriverWorks(s, d, Gone);
  }

  lemma OneDriversWork(s: State, cancelled: set<nat>, d: nat)
    requires OneDriver(s) && d < |s.drivers| && s.drivers[d].Live()
    ensures Total(s.drivers, DriverWork(cancelled)) == DriverWork(cancelled)(s.drivers[d])
  {
    var work := DriverWork(cancelled);
    TotalUpdate(s.drivers, d, Gone, work);
    TotalOfNone(s.drivers[d := Gone], work);
  }

  lemma OutsideStepWorks(s: State, step: Step)
    requires OneDriver(s) && Enabled(s, step) && FromOutside(step)
    ensures Work(Apply(s, step)) <= Work(s) + Adds(step)
  {
    if step.Call? {
      TotalOneMore(s.callers, Entered, CallerWork);
    } else if step.Cancel? {
      var s' := Apply(s, step);
      if d :| 0 <= d < |s.drivers| && s.drivers[d].Live() {
        OneDriversWork(s, s.cancelled, d);
        OneDriversWork(s, s'.cancelled, d);
      } else {
        TotalOfNone(s.drivers, DriverWork(s.cancelled));
        TotalOfNone(s.drivers, DriverWork(s'.cancelled));
      }
    }
    hide Total;
  }

  /** How much a step from outside can add: a call all its own work and a song's, the end of a layer the
      waking of its watcher. */
  function Adds(step: Step): nat {
    match step
    case Call => 13
    case Cancel => 5
    case _ => 0
  }

  /** Every step of a caller, a driver or the mixer lowers the work left, and steps from outside raise it by
      no more than they add. */
  lemma StepWorks(s: State, step: Step)
    requires Reachable(s) && Enabled(s, step)
    ensures if FromOutside(step) then Work(Apply(s, step)) <= Work(s) + Adds(step) else Work(Apply(s, step)) < Work(s)
  {
    ReachableInv(s);
    hide OneDriver, StartLockOk, QueueLockOk, QueueOk, NotStranded, LayerOk, Work, Enabled, Apply;
    if FromOutside(step) {
      OutsideStepWorks(s, step);
    } else if step.LockStart? || step.TakeSong? || step.GiveUp? {
      TakingWorks(s, step);
    } else if step.OpenPipe? {
      OpeningWorks(s, step.driver, step.ok);
    } else if step.Register? {
      RegisteringWorks(s, step.driver);
    } else if step.Wake? {
      WakingWorks(s, step.driver);
    } else if step.Delete? {
      DeleteWorks(s);
    } else {
      CallerStepWorks(s, step);
    }
  }

  lemma DeleteWorks(s: State)
    requires Enabled(s, Delete)
    ensures Work(Apply(s, Delete)) < Work(s)
  {
    hide Total;
  }

  function Added(steps: seq<Step>): nat {
    if steps == [] then 0 else Added(steps[..|steps| - 1]) + Adds(steps[|steps| - 1])
  }

  /** The steps that are not from outside. */
  function Inside(steps: seq<Step>): nat {
    if steps == [] then 0 else Inside(steps[..|steps| - 1]) + if FromOutside(steps[|steps| - 1]) then 0 else 1
  }

  /** So in any run the player takes at most 13 steps a call and 5 a layer ended, in whatever order, and
      left alone it always settles. */
  lemma {:induction false} AllSettles(capacity: nat, steps: seq<Step>)
    requires 0 < capacity && Run(capacity, steps).Some?
    ensures Inside(steps) + Work(Run(capacity, steps).value) <= Added(steps)
  {
    if steps != [] {
      var init := steps[..|steps| - 1];
      AllSettles(capacity, init);
      assert Reachable(Run(capacity, init).value);
      hide Work;
      StepWorks(Run(capacity, init).value, steps[|steps| - 1]);
    }
  }

  // ---- whose song is played ------------------------------------------------------

  /** A driver takes the oldest song that was accepted and has not left, and so does a drain; songs leave in
      no other way. */
  lemma SongsLeaveInTurn(s: State, step: Step)
    requires Reachable(s) && Enabled(s, step)
    ensures var s' := Apply(s, step);
            if (step.TakeSong? || step.Drain?) && |s.taken| < |s.accepted| then
              && s'.taken == s.taken + [s.accepted[|s.taken|]]
              && (step.TakeSong? ==> s'.drivers[step.driver] == Took(s.accepted[|s.taken|]))
            else s'.taken == s.taken
  {
    ReachableInv(s);
    hide OneDriver, StartLockOk, QueueLockOk, NotStranded, LayerOk, Pushed;
  }

  /** The song a driver took is the one it opens a pipe for and puts on a layer. */
  lemma SongInHandIsKept(s: State, step: Step, d: nat)
    requires Enabled(s, step) && d < |s.drivers| && s.drivers[d].Took? && Apply(s, step).drivers[d] != s.drivers[d]
    ensures step == OpenPipe(d, true) || step == OpenPipe(d, false)
    ensures step == OpenPipe(d, true) ==> Apply(s, step).drivers[d] == Opened(s.drivers[d].song, s.nextLayer)
  {
    hide Pushed;
  }

  /** What befell one Queue call: the song its search found, whether it was turned away, whether it added. */
  datatype Story = Story(found: Option<Song>, refused: bool, added: bool)

  /** It is turned away by a full queue, early or late, and by a search that finds nothing. */
  function Tell(s: State, step: Step, c: nat, story: Story): Story
    requires Enabled(s, step)
  {
    match step
    case EarlyCheck(d) => if d == c && |s.queue| >= s.capacity then story.(refused := true) else story
    case SearchDone(d, song) =>
      if d != c then story else if song.Some? then story.(found := song) else story.(refused := true)
    case LockQueue(d) => if d == c && |s.queue| >= s.capacity then story.(refused := true) else story
    case AddSong(d) => if d == c then story.(added := true) else story
    case _ => story
  }

  function StoryOf(capacity: nat, steps: seq<Step>, c: nat): Story
    requires Run(capacity, steps).Some?
  {
    if steps == [] then Story(None, false, false)
    else
      var init := steps[..|steps| - 1];
      Tell(Run(capacity, init).value, steps[|steps| - 1], c, StoryOf(capacity, init, c))
  }

  predicate Follows(pc: CallerPc, story: Story) {
    match pc
    case Entered => story == Story(None, false, false)
    case Searching => story == Story(None, false, false)
    case Found(song) => story == Story(Some(song), false, false)
    case Checked(song) => story == Story(Some(song), false, false)
    case Queued => story.found.Some? && story.added && !story.refused
    case Finished => story.refused != story.added && (story.added ==> story.found.Some?)
  }

  lemma StepFollows(s: State, step: Step, c: nat, story: Story)
    requires Enabled(s, step) && c < |s.callers| && Follows(s.callers[c], story)
    ensures Follows(Apply(s, step).callers[c], Tell(s, step, c, story))
  {
    hide Pushed;
  }

  lemma {:induction false} NoStoryYet(capacity: nat, steps: seq<Step>, c: nat)
    requires Run(capacity, steps).Some? && c >= |Run(capacity, steps).value.callers|
    ensures StoryOf(capacity, steps, c) == Story(None, false, false)
  {
    hide Pushed;
    if steps != [] {
      NoStoryYet(capacity, steps[..|steps| - 1], c);
    }
  }

  lemma {:induction false} EveryCallFollows(capacity: nat, steps: seq<Step>, c: nat)
    requires Run(capacity, steps).Some? && c < |Run(capacity, steps).value.callers|
    ensures Follows(Run(capacity, steps).value.callers[c], StoryOf(capacity, steps, c))
  {
    var init, step := steps[..|steps| - 1], steps[|steps| - 1];
    var s := Run(capacity, init).value;
    if c < |s.callers| {
      EveryCallFollows(capacity, init, c);
      StepFollows(s, step, c, StoryOf(capacity, init, c));
      hide Apply, Enabled, Follows, Tell;
    } else {
      NoStoryYet(capacity, init, c);
      CallsBegin(s, step, c);
      hide Apply, Enabled;
    }
  }

  lemma CallsBegin(s: State, step: Step, c: nat)
    requires Enabled(s, step) && |s.callers| <= c < |Apply(s, step).callers|
    ensures step.Call? && Apply(s, step).callers[c] == Entered
  {
    hide Pushed;
  }

  /** Over any run, a Queue call that is over added its song exactly when it was not turned away. */
  lemma {:induction false} QueuesUnlessRefused(capacity: nat, steps: seq<Step>, c: nat)
    requires Run(capacity, steps).Some? && c < |Run(capacity, steps).value.callers|
    requires Run(capacity, steps).value.callers[c].Finished?
    ensures var story := StoryOf(capacity, steps, c); story.added <==> !story.refused
  {
    EveryCallFollows(capacity, steps, c);
    hide Run, StoryOf;
  }

  /** The songs calls found, in the order in which they added them. */
  function SongsAdded(capacity: nat, steps: seq<Step>): seq<Option<Song>>
    requires Run(capacity, steps).Some?
  {
    if steps == [] then []
    else
      var init, step := steps[..|steps| - 1], steps[|steps| - 1];
      SongsAdded(capacity, init) + if step.AddSong? then [StoryOf(capacity, init, step.caller).found] else []
  }

  /** And the songs accepted are exactly those, each what its own call's search found. */
  lemma {:induction false} AcceptedIsWhatWasFound(capacity: nat, steps: seq<Step>)
    requires Run(capacity, steps).Some?
    ensures var accepted, added := Run(capacity, steps).value.accepted, SongsAdded(capacity, steps);
            |accepted| == |added| && forall i :: 0 <= i < |added| ==> added[i] == Some(accepted[i])
  {
    if steps != [] {
      var init, step := steps[..|steps| - 1], steps[|steps| - 1];
      AcceptedIsWhatWasFound(capacity, init);
      if step.AddSong? {
        EveryCallFollows(capacity, init, step.caller);
      }
      StepAccepts(Run(capacity, init).value, step);
      hide Apply, StoryOf;
    }
  }

  lemma StepAccepts(s: State, step: Step)
    requires Enabled(s, step)
    ensures Apply(s, step).accepted == s.accepted + if step.AddSong? then [s.callers[step.caller].song] else []
  {
    hide Pushed;
  }
}
