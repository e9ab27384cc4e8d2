/** The tool-call protocol: executors share the bot's stream through a pending table, a send
    lock and one-slot channels, while streams open, end and replace each other
    (llm/server/tools.go). Every lock-held block is one step; a call or a handler is a
    program counter, and any interleaving of their steps is a run. */
module ToolCalls {
  import opened CircularQueues

  datatype Reply = Reply(id: nat, body: string)

  datatype Outcome =
    | Answer(reply: Reply)
    | Unavailable
    | SendFailed
    | Cancelled
    | Disconnected

  /** Where an executor is: reading the bot, numbering its call, then inside botStream.call. */
  datatype CallPc =
    | Started
    | Picked
    | Numbered
    | Registered
    | Sending
    | Waiting
    | Leaving(outcome: Outcome)
    | Returned(outcome: Outcome)

  /** One executor. slot is its one-slot result channel, got how many values were ever put in it. */
  datatype Call = Call(args: string, pc: CallPc, id: nat, stream: nat, slot: Option<Reply>, got: nat) {
    predicate HasStream() { !(pc.Started? || pc == Returned(Unavailable)) }
    predicate HasId() { HasStream() && !pc.Picked? }
    /** Between putting its channel in the table and the deferred delete. */
    predicate InTable() { pc.Registered? || pc.Sending? || pc.Waiting? || pc.Leaving? }
  }

  /** Where a stream's handler is: its receive loop, then its deferred clean-up. */
  datatype HandlerPc =
    | Opened
    | Receiving
    | Handing(call: nat, reply: Reply)
    | Ended
    | Cleared
    | Closed
    | Finished

  datatype Stream = Stream(pc: HandlerPc, sender: Option<nat>, closed: bool, done: bool, pending: map<nat, nat>)

  datatype State = State(calls: seq<Call>, streams: seq<Stream>, bot: Option<nat>, nextID: nat, installed: seq<nat>)

  const INIT := State([], [], None, 0, [])

  datatype Step =
    // an executor
    | Begin(args: string)
    | PickBot(call: nat)
    | TakeId(call: nat)
    | Register(call: nat)
    | LockSend(call: nat)
    | FinishSend(call: nat, ok: bool)
    | TakeReply(call: nat)
    | GiveUp(call: nat)
    | SeeDone(call: nat)
    | Deregister(call: nat)
    // a stream's handler
    | Open
    | Install(stream: nat)
    | Receive(stream: nat, reply: Reply)
    | Push(stream: nat)
    | End(stream: nat)
    | ClearBot(stream: nat)
    | Close(stream: nat)
    | CloseDone(stream: nat)

  predicate At(s: State, t: nat, pc: CallPc) {
    t < |s.calls| && s.calls[t].pc == pc
  }

  predicate HandlerAt(s: State, x: nat, pc: HandlerPc) {
    x < |s.streams| && s.streams[x].pc == pc
  }

  /** No precondition but the program counter, the locks and the channel operations that block. */
  predicate Enabled(s: State, step: Step) {
    match step
    case Begin(_) => true
    case PickBot(t) => At(s, t, Started)
    case TakeId(t) => At(s, t, Picked)
    case Register(t) => At(s, t, Numbered) && s.calls[t].stream < |s.streams|
    case LockSend(t) => At(s, t, Registered) && s.calls[t].stream < |s.streams| && s.streams[s.calls[t].stream].sender == None
    case FinishSend(t, _) => At(s, t, Sending) && s.calls[t].stream < |s.streams|
    case TakeReply(t) => At(s, t, Waiting) && s.calls[t].slot.Some?
    case GiveUp(t) => At(s, t, Waiting)
    case SeeDone(t) => At(s, t, Waiting) && s.calls[t].stream < |s.streams| && s.streams[s.calls[t].stream].done
    case Deregister(t) => t < |s.calls| && s.calls[t].pc.Leaving? && s.calls[t].stream < |s.streams|
    case Open => true
    case Install(x) => HandlerAt(s, x, Opened)
    case Receive(x, _) => HandlerAt(s, x, Receiving)
    case Push(x) => x < |s.streams| && s.streams[x].pc.Handing? && s.streams[x].pc.call < |s.calls|
                    && s.calls[s.streams[x].pc.call].slot == None
    case End(x) => HandlerAt(s, x, Receiving)
    case ClearBot(x) => HandlerAt(s, x, Ended)
    case Close(x) => HandlerAt(s, x, Cleared) && s.streams[x].sender == None
    case CloseDone(x) => HandlerAt(s, x, Closed)
  }

  function SetCall(s: State, t: nat, c: Call): State
    requires t < |s.calls|
  {
    s.(calls := s.calls[t := c])
  }

  function SetStream(s: State, x: nat, b: Stream): State
    requires x < |s.streams|
  {
    s.(streams := s.streams[x := b])
  }

  function SetPc(s: State, t: nat, pc: CallPc): State
    requires t < |s.calls|
  {
    SetCall(s, t, s.calls[t].(pc := pc))
  }

  function SetHandler(s: State, x: nat, pc: HandlerPc): State
    requires x < |s.streams|
  {
    SetStream(s, x, s.streams[x].(pc := pc))
  }

  function Apply(s: State, step: Step): State
    requires Enabled(s, step)
  {
    match step
    case Begin(args) => s.(calls := s.calls + [Call(args, Started, 0, 0, None, 0)])
    case PickBot(t) =>
      if s.bot == None then SetPc(s, t, Returned(Unavailable))
      else SetCall(s, t, s.calls[t].(pc := Picked, stream := s.bot.value))
    case TakeId(t) =>
      SetCall(s, t, s.calls[t].(pc := Numbered, id := s.nextID + 1)).(nextID := s.nextID + 1)
    case Register(t) =>
      var x := s.calls[t].stream;
      SetStream(SetPc(s, t, Registered), x, s.streams[x].(pending := s.streams[x].pending[s.calls[t].id := t]))
    case LockSend(t) =>
      var x := s.calls[t].stream;
      if s.streams[x].closed then SetPc(s, t, Leaving(SendFailed))
      else SetStream(SetPc(s, t, Sending), x, s.streams[x].(sender := Some(t)))
    case FinishSend(t, ok) =>
      var x := s.calls[t].stream;
      SetStream(SetPc(s, t, if ok then Waiting else Leaving(SendFailed)), x, s.streams[x].(sender := None))
    case TakeReply(t) =>
      SetCall(s, t, s.calls[t].(pc := Leaving(Answer(s.calls[t].slot.value)), slot := None))
    case GiveUp(t) => SetPc(s, t, Leaving(Cancelled))
    case SeeDone(t) => SetPc(s, t, Leaving(Disconnected))
    case Deregister(t) =>
      var x := s.calls[t].stream;
      SetStream(SetPc(s, t, Returned(s.calls[t].pc.outcome)), x,
                s.streams[x].(pending := s.streams[x].pending - {s.calls[t].id}))
    case Open => s.(streams := s.streams + [Stream(Opened, None, false, false, map[])])
    case Install(x) => SetHandler(s, x, Receiving).(bot := Some(x), installed := s.installed + [x])
    case Receive(x, reply) =>
      var b := s.streams[x];
      if reply.id in b.pending then
        SetStream(s, x, b.(pc := Handing(b.pending[reply.id], reply), pending := b.pending - {reply.id}))
      else s
    case Push(x) =>
      var t, reply := s.streams[x].pc.call, s.streams[x].pc.reply;
      SetHandler(SetCall(s, t, s.calls[t].(slot := Some(reply), got := s.calls[t].got + 1)), x, Receiving)
    case End(x) => SetHandler(s, x, Ended)
    case ClearBot(x) =>
      SetHandler(s, x, Cleared).(bot := if s.bot == Some(x) then None else s.bot)
    case Close(x) => SetStream(s, x, s.streams[x].(pc := Closed, closed := true))
    case CloseDone(x) => SetStream(s, x, s.streams[x].(pc := Finished, done := true))
  }

  // ---- runs ----------------------------------------------------------------------

  /** The state a sequence of steps leads to, None if one of them was not enabled. */
  function Run(steps: seq<Step>): Option<State> {
    if steps == [] then Some(INIT)
    else match Run(steps[..|steps| - 1])
      case Some(s) => if Enabled(s, steps[|steps| - 1]) then Some(Apply(s, steps[|steps| - 1])) else None
      case None => None
  }

  // ---- the invariant -------------------------------------------------------------

  predicate Handed(s: State, t: nat)
    requires t < |s.calls|
  {
    var x := s.calls[t].stream;
    x < |s.streams| && s.streams[x].pc.Handing? && s.streams[x].pc.call == t
  }

  /** What holds of one call, whatever the others do. */
  predicate CallOk(s: State, t: nat)
    requires t < |s.calls|
  {
    var c := s.calls[t];
    && (c.HasStream() ==> c.stream < |s.streams|)
    && (c.pc.Leaving? ==> c.pc.outcome != Unavailable)
    && (c.HasId() ==> 1 <= c.id <= s.nextID)
    && (c.pc.Sending? ==> s.streams[c.stream].sender == Some(t))
    // at most one value ever enters the channel, it carries the call's own id, and none is there otherwise
    && c.got <= 1
    && (c.slot.Some? ==> c.got == 1 && c.slot.value.id == c.id)
    && (c.got == 1 ==> c.HasId() && !c.pc.Numbered?)
    && (c.got == 1 && (c.pc.Registered? || c.pc.Sending? || c.pc.Waiting?) ==> c.slot.Some?)
    && ((c.pc.Leaving? || c.pc.Returned?) && c.pc.outcome.Answer? ==> c.got == 1 && c.slot == None && c.pc.outcome.reply.id == c.id)
    // the table holds exactly the calls that are registered, undelivered and not yet gone
    && (c.InTable() && c.got == 0 && !Handed(s, t) ==>
          c.id in s.streams[c.stream].pending && s.streams[c.stream].pending[c.id] == t)
  }

  /** What holds of one stream. */
  predicate StreamOk(s: State, x: nat)
    requires x < |s.streams|
  {
    var b := s.streams[x];
    && (b.closed <==> b.pc.Closed? || b.pc.Finished?)
    && (b.done <==> b.pc.Finished?)
    && (b.sender.Some? ==> !b.closed && At(s, b.sender.value, Sending) && s.calls[b.sender.value].stream == x)
    && (forall id :: id in b.pending ==> Awaits(s, b.pending[id], x, id) && s.calls[b.pending[id]].InTable())
    && (b.pc.Handing? ==> Awaits(s, b.pc.call, x, b.pc.reply.id) && b.pc.reply.id !in b.pending)
    && (b.pc.Opened? <==> x !in s.installed)
  }

  /** Call t is on stream x under this id and nothing has reached its channel. */
  predicate Awaits(s: State, t: nat, x: nat, id: nat) {
    t < |s.calls| && s.calls[t].HasId() && !s.calls[t].pc.Numbered?
    && s.calls[t].stream == x && s.calls[t].id == id && s.calls[t].got == 0
  }

  predicate IdsDiffer(s: State) {
    forall t, u :: 0 <= t < |s.calls| && 0 <= u < |s.calls| && t != u && s.calls[t].HasId() && s.calls[u].HasId() ==>
      s.calls[t].id != s.calls[u].id
  }

  /** s.bot is the stream installed last, until that stream's own handler clears it. */
  predicate BotOk(s: State) {
    && (forall i :: 0 <= i < |s.installed| ==> s.installed[i] < |s.streams|)
    && s.bot == if s.installed == [] then None
                else var last := s.installed[|s.installed| - 1];
                     var pc := s.streams[last].pc;
                     if pc.Cleared? || pc.Closed? || pc.Finished? then None else Some(last)
  }

  predicate Inv(s: State) {
    && (forall t :: 0 <= t < |s.calls| ==> CallOk(s, t))
    && (forall x :: 0 <= x < |s.streams| ==> StreamOk(s, x))
    && IdsDiffer(s)
    && BotOk(s)
  }

  // ---- every step keeps it -------------------------------------------------------

  lemma BeginKeeps(s: State, step: Step)
    requires Inv(s) && Enabled(s, step) && (step.Begin? || step.TakeReply?)
    ensures Inv(Apply(s, step))
  {
    var s' := Apply(s, step);
    forall t | 0 <= t < |s'.calls| ensures CallOk(s', t) { assert t < |s.calls| ==> CallOk(s, t); }
    forall x | 0 <= x < |s'.streams| ensures StreamOk(s', x) { assert StreamOk(s, x); }
  }

  lemma PickBotKeeps(s: State, step: Step)
    requires Inv(s) && Enabled(s, step) && step.PickBot?
    ensures Inv(Apply(s, step))
  {
    var s' := Apply(s, step);
    forall t | 0 <= t < |s'.calls| ensures CallOk(s', t) { assert CallOk(s, t); }
    forall x | 0 <= x < |s'.streams| ensures StreamOk(s', x) { assert StreamOk(s, x); }
  }

  lemma TakeIdKeeps(s: State, step: Step)
    requires Inv(s) && Enabled(s, step) && step.TakeId?
    ensures Inv(Apply(s, step))
  {
    var s' := Apply(s, step);
    assert forall u :: 0 <= u < |s.calls| && s.calls[u].HasId() ==> CallOk(s, u);
    forall t | 0 <= t < |s'.calls| ensures CallOk(s', t) { assert CallOk(s, t); }
    forall x | 0 <= x < |s'.streams| ensures StreamOk(s', x) { assert StreamOk(s, x); }
  }

  lemma RegisterKeeps(s: State, step: Step)
    requires Inv(s) && Enabled(s, step) && step.Register?
    ensures Inv(Apply(s, step))
  {
    var s' := Apply(s, step);
    assert CallOk(s, step.call) && StreamOk(s, s.calls[step.call].stream);
    forall t | 0 <= t < |s'.calls| ensures CallOk(s', t) { assert CallOk(s, t); }
    hide CallOk, BotOk;
    forall x | 0 <= x < |s'.streams| ensures StreamOk(s', x) { RegisterKeepsStream(s, step.call, x); }
  }

  lemma RegisterKeepsStream(s: State, t: nat, x: nat)
    requires Inv(s) && Enabled(s, Register(t)) && x < |s.streams|
    ensures StreamOk(Apply(s, Register(t)), x)
  {
    assert CallOk(s, t) && StreamOk(s, x);
  }

  /** A send that finds the stream closed only gives up; one that does not takes the lock. */
  lemma LockSendKeeps(s: State, step: Step)
    requires Inv(s) && Enabled(s, step) && step.LockSend?
    ensures Inv(Apply(s, step))
  {
    if s.streams[s.calls[step.call].stream].closed {
      LockClosedKeeps(s, step.call);
    } else {
      LockOpenKeeps(s, step.call);
    }
  }

  lemma LockClosedKeeps(s: State, t: nat)
    requires Inv(s) && Enabled(s, LockSend(t)) && s.streams[s.calls[t].stream].closed
    ensures Inv(Apply(s, LockSend(t)))
  {
    var s' := Apply(s, LockSend(t));
    assert CallOk(s, t);
    forall u | 0 <= u < |s'.calls| ensures CallOk(s', u) { assert CallOk(s, u); }
    forall x | 0 <= x < |s'.streams| ensures StreamOk(s', x) { assert StreamOk(s, x); }
  }

  lemma LockOpenKeeps(s: State, t: nat)
    requires Inv(s) && Enabled(s, LockSend(t)) && !s.streams[s.calls[t].stream].closed
    ensures Inv(Apply(s, LockSend(t)))
  {
    var s' := Apply(s, LockSend(t));
    assert CallOk(s, t) && StreamOk(s, s.calls[t].stream);
    forall u | 0 <= u < |s'.calls| ensures CallOk(s', u) { assert CallOk(s, u); }
    forall x | 0 <= x < |s'.streams| ensures StreamOk(s', x) { assert StreamOk(s, x); }
  }

  lemma FinishSendKeeps(s: State, step: Step)
    requires Inv(s) && Enabled(s, step) && step.FinishSend?
    ensures Inv(Apply(s, step))
  {
    var s' := Apply(s, step);
    assert CallOk(s, step.call);
    forall t | 0 <= t < |s'.calls| ensures CallOk(s', t) { assert CallOk(s, t); }
    forall x | 0 <= x < |s'.streams| ensures StreamOk(s', x) { assert StreamOk(s, x); }
  }

  lemma StopWaitingKeeps(s: State, step: Step)
    requires Inv(s) && Enabled(s, step) && (step.GiveUp? || step.SeeDone?)
    ensures Inv(Apply(s, step))
  {
    var s' := Apply(s, step);
    forall t | 0 <= t < |s'.calls| ensures CallOk(s', t) { assert CallOk(s, t); }
    forall x | 0 <= x < |s'.streams| ensures StreamOk(s', x) { assert StreamOk(s, x); }
  }

  lemma DeregisterKeeps(s: State, step: Step)
    requires Inv(s) && Enabled(s, step) && step.Deregister?
    ensures Inv(Apply(s, step))
  {
    var s' := Apply(s, step);
    assert CallOk(s, step.call) && StreamOk(s, s.calls[step.call].stream);
    forall t | 0 <= t < |s'.calls| ensures CallOk(s', t) { assert CallOk(s, t); }
    forall x | 0 <= x < |s'.streams| ensures StreamOk(s', x) { DeregisterKeepsStream(s, step.call, x); }
  }

  lemma DeregisterKeepsStream(s: State, t: nat, x: nat)
    requires Inv(s) && Enabled(s, Deregister(t)) && x < |s.streams|
    ensures StreamOk(Apply(s, Deregister(t)), x)
  {
    assert CallOk(s, t) && StreamOk(s, x);
  }

  lemma OpeningKeeps(s: State, step: Step)
    requires Inv(s) && Enabled(s, step) && (step.Open? || step.Install?)
    ensures Inv(Apply(s, step))
  {
    var s' := Apply(s, step);
    forall t | 0 <= t < |s'.calls| ensures CallOk(s', t) { assert CallOk(s, t); }
    forall x | 0 <= x < |s'.streams| ensures StreamOk(s', x) { assert x < |s.streams| ==> StreamOk(s, x); }
  }

  lemma ReceiveKeeps(s: State, step: Step)
    requires Inv(s) && Enabled(s, step) && step.Receive?
    ensures Inv(Apply(s, step))
  {
    var s' := Apply(s, step);
    assert StreamOk(s, step.stream);
    forall t | 0 <= t < |s'.calls| ensures CallOk(s', t) { assert CallOk(s, t); }
    forall x | 0 <= x < |s'.streams| ensures StreamOk(s', x) { assert StreamOk(s, x); }
  }

  lemma PushKeeps(s: State, step: Step)
    requires Inv(s) && Enabled(s, step) && step.Push?
    ensures Inv(Apply(s, step))
  {
    var s' := Apply(s, step);
    assert StreamOk(s, step.stream) && CallOk(s, s.streams[step.stream].pc.call);
    forall t | 0 <= t < |s'.calls| ensures CallOk(s', t) { assert CallOk(s, t); }
    forall x | 0 <= x < |s'.streams| ensures StreamOk(s', x) { assert StreamOk(s, x); }
  }

  lemma EndingKeeps(s: State, step: Step)
    requires Inv(s) && Enabled(s, step) && (step.End? || step.ClearBot? || step.Close? || step.CloseDone?)
    ensures Inv(Apply(s, step))
  {
    var s' := Apply(s, step);
    forall t | 0 <= t < |s'.calls| ensures CallOk(s', t) { assert CallOk(s, t); }
    forall x | 0 <= x < |s'.streams| ensures StreamOk(s', x) { assert StreamOk(s, x); }
  }

  lemma StepKeepsInv(s: State, step: Step)
    requires Inv(s) && Enabled(s, step)
    ensures Inv(Apply(s, step))
  {
    hide Inv, Apply, Enabled;
    match step
    case Begin(_) => BeginKeeps(s, step);
    case PickBot(_) => PickBotKeeps(s, step);
    case TakeId(_) => TakeIdKeeps(s, step);
    case Register(_) => RegisterKeeps(s, step);
    case LockSend(_) => LockSendKeeps(s, step);
    case FinishSend(_, _) => FinishSendKeeps(s, step);
    case TakeReply(_) => BeginKeeps(s, step);
    case GiveUp(_) => StopWaitingKeeps(s, step);
    case SeeDone(_) => StopWaitingKeeps(s, step);
    case Deregister(_) => DeregisterKeeps(s, step);
    case Open => OpeningKeeps(s, step);
    case Install(_) => OpeningKeeps(s, step);
    case Receive(_, _) => ReceiveKeeps(s, step);
    case Push(_) => PushKeeps(s, step);
    case _ => EndingKeeps(s, step);
  }

  ghost predicate Reachable(s: State) {
    exists steps :: Run(steps) == Some(s)
  }

  lemma {:induction false} EveryRunKeepsInv(steps: seq<Step>)
    requires Run(steps).Some?
    ensures Inv(Run(steps).value)
  {
    if steps != [] {
      EveryRunKeepsInv(steps[..|steps| - 1]);
      StepKeepsInv(Run(steps[..|steps| - 1]).value, steps[|steps| - 1]);
    }
  }

  /** The invariant holds after every run, of any number of calls and streams in any interleaving. */
  lemma ReachableInv(s: State)
    requires Reachable(s)
    ensures Inv(s)
  {
    var steps :| Run(steps) == Some(s);
    EveryRunKeepsInv(steps);
  }

  // ---- what the protocol promises ------------------------------------------------

  predicate Answered(c: Call) {
    c.pc.Returned? && c.pc.outcome.Answer?
  }

  /** A call that returns a result returns one carrying its own id, and no two calls return results
      with the same id, whatever results arrive: duplicated, unknown or late. */
  lemma EachCallGetsItsOwnResult(s: State, t: nat, u: nat)
    requires Reachable(s) && t < |s.calls| && u < |s.calls| && t != u
    requires Answered(s.calls[t]) && Answered(s.calls[u])
    ensures s.calls[t].pc.outcome.reply.id == s.calls[t].id
    ensures s.calls[t].pc.outcome.reply.id != s.calls[u].pc.outcome.reply.id
  {
    ReachableInv(s);
    assert CallOk(s, t) && CallOk(s, u);
  }

  /** A channel takes at most one value ever, so handing over a result never blocks the receive loop. */
  lemma DeliverNeverBlocks(s: State, x: nat)
    requires Reachable(s) && x < |s.streams| && s.streams[x].pc.Handing?
    ensures Enabled(s, Push(x)) && s.calls[s.streams[x].pc.call].got == 0
    ensures Apply(s, Push(x)).calls[s.streams[x].pc.call].got == 1
  {
    ReachableInv(s);
    assert StreamOk(s, x) && CallOk(s, s.streams[x].pc.call);
  }

  /** Call t is on stream x under id, registered, not delivered to and not gone. */
  predicate Outstanding(s: State, t: nat, x: nat, id: nat) {
    t < |s.calls| && s.calls[t].stream == x && s.calls[t].id == id && s.calls[t].InTable()
    && s.calls[t].got == 0 && !Handed(s, t)
  }

  /** A stream's table holds exactly its outstanding calls. */
  lemma TableIsExact(s: State, x: nat, id: nat)
    requires Reachable(s) && x < |s.streams|
    ensures id in s.streams[x].pending <==> exists t :: Outstanding(s, t, x, id)
  {
    ReachableInv(s);
    assert StreamOk(s, x);
    if id in s.streams[x].pending {
      assert CallOk(s, s.streams[x].pending[id]);
      assert Outstanding(s, s.streams[x].pending[id], x, id);
    }
    forall t | Outstanding(s, t, x, id)
      ensures id in s.streams[x].pending
    {
      assert CallOk(s, t);
    }
  }

  /** So nothing leaks: with no call in flight on a stream its table is empty. */
  lemma IdleStreamHasEmptyTable(s: State, x: nat)
    requires Reachable(s) && x < |s.streams|
    requires forall t :: 0 <= t < |s.calls| && s.calls[t].stream == x ==> !s.calls[t].InTable()
    ensures s.streams[x].pending == map[]
  {
    forall id ensures id !in s.streams[x].pending {
      TableIsExact(s, x, id);
    }
  }

  /** s.bot is the newest stream until that stream's own handler clears it, so it is never one
      that is closed or done. */
  lemma BotIsTheNewestStream(s: State)
    requires Reachable(s)
    ensures BotOk(s)
    ensures s.bot.Some? ==> s.bot.value < |s.streams| && !s.streams[s.bot.value].closed && !s.streams[s.bot.value].done
  {
    ReachableInv(s);
    assert s.bot.Some? ==> StreamOk(s, s.bot.value);
  }

  /** A handler that ends takes its stream away only if no newer one has been installed. */
  lemma OldHandlerKeepsNewStream(s: State, x: nat)
    requires Reachable(s) && Enabled(s, ClearBot(x))
    ensures s.installed != []
    ensures Apply(s, ClearBot(x)).bot == if s.installed[|s.installed| - 1] == x then None else s.bot
  {
    ReachableInv(s);
    assert StreamOk(s, x);
  }

  /** No Send runs on a stream once close has had the send lock, let alone once its handler is
      gone, and no two run at once. */
  lemma NoSendAfterClose(s: State, t: nat, u: nat)
    requires Reachable(s) && t < |s.calls| && u < |s.calls|
    requires s.calls[t].pc.Sending? && s.calls[u].pc.Sending?
    ensures s.calls[t].stream < |s.streams|
    ensures !s.streams[s.calls[t].stream].closed && !s.streams[s.calls[t].stream].pc.Finished?
    ensures s.calls[t].stream == s.calls[u].stream ==> t == u
  {
    ReachableInv(s);
    assert CallOk(s, t) && CallOk(s, u) && StreamOk(s, s.calls[t].stream);
  }

  // ---- what a call returns -------------------------------------------------------

  /** The failure a step brings on call t, if it does: no bot to ask, a closed stream, a send that failed,
      a caller that hung up, a stream that ended. */
  function FailureBy(s: State, step: Step, t: nat): Option<Outcome>
    requires Enabled(s, step)
  {
    match step
    case PickBot(u) => if u == t && s.bot == None then Some(Unavailable) else None
    case LockSend(u) => if u == t && s.streams[s.calls[u].stream].closed then Some(SendFailed) else None
    case FinishSend(u, ok) => if u == t && !ok then Some(SendFailed) else None
    case GiveUp(u) => if u == t then Some(Cancelled) else None
    case SeeDone(u) => if u == t then Some(Disconnected) else None
    case _ => None
  }

  /** The result a step puts in the channel of call t, if it does. */
  function DeliveryBy(s: State, step: Step, t: nat): Option<Reply>
    requires Enabled(s, step)
  {
    if step.Push? && s.streams[step.stream].pc.call == t then Some(s.streams[step.stream].pc.reply) else None
  }

  function FailureOf(steps: seq<Step>, t: nat): Option<Outcome>
    requires Run(steps).Some?
  {
    if steps == [] then None
    else
      var init, step := steps[..|steps| - 1], steps[|steps| - 1];
      var now := FailureBy(Run(init).value, step, t);
      if now.Some? then now else FailureOf(init, t)
  }

  function DeliveryTo(steps: seq<Step>, t: nat): Option<Reply>
    requires Run(steps).Some?
  {
    if steps == [] then None
    else
      var init, step := steps[..|steps| - 1], steps[|steps| - 1];
      var now := DeliveryBy(Run(init).value, step, t);
      if now.Some? then now else DeliveryTo(init, t)
  }

  /** What a call is up to agrees with what befell it. */
  predicate Tracked(c: Call, failed: Option<Outcome>, delivered: Option<Reply>) {
    && (c.slot.Some? ==> delivered == c.slot)
    && (c.got == 0 ==> delivered == None)
    && (if c.pc.Leaving? || c.pc.Returned? then
          if failed.Some? then c.pc.outcome == failed.value
          else delivered.Some? && c.pc.outcome == Answer(delivered.value)
        else failed == None)
  }

  lemma StepTracks(s: State, step: Step, t: nat, failed: Option<Outcome>, delivered: Option<Reply>)
    requires Enabled(s, step) && t < |s.calls| && CallOk(s, t) && Tracked(s.calls[t], failed, delivered)
    requires step.Push? ==> StreamOk(s, step.stream)
    ensures var failed', delivered' := FailureBy(s, step, t), DeliveryBy(s, step, t);
            Tracked(Apply(s, step).calls[t],
                    if failed'.Some? then failed' else failed, if delivered'.Some? then delivered' else delivered)
  {
  }

  lemma {:induction false} NothingBefellYet(steps: seq<Step>, t: nat)
    requires Run(steps).Some? && t >= |Run(steps).value.calls|
    ensures FailureOf(steps, t) == None && DeliveryTo(steps, t) == None
  {
    if steps != [] {
      var init := steps[..|steps| - 1];
      var s, step := Run(init).value, steps[|steps| - 1];
      NothingBefellYet(init, t);
      EveryRunKeepsInv(init);
      assert step.Push? ==> StreamOk(s, step.stream);
    }
  }

  lemma {:induction false} EveryCallIsTracked(steps: seq<Step>, t: nat)
    requires Run(steps).Some? && t < |Run(steps).value.calls|
    ensures Tracked(Run(steps).value.calls[t], FailureOf(steps, t), DeliveryTo(steps, t))
  {
    var init := steps[..|steps| - 1];
    var s, step := Run(init).value, steps[|steps| - 1];
    EveryRunKeepsInv(init);
    if t < |s.calls| {
      EveryCallIsTracked(init, t);
      assert CallOk(s, t) && (step.Push? ==> StreamOk(s, step.stream));
      StepTracks(s, step, t, FailureOf(init, t), DeliveryTo(init, t));
      hide Apply, Enabled, Tracked, FailureBy, DeliveryBy, Inv;
    } else {
      NothingBefellYet(init, t);
    }
  }

  /** Over any run, a call that has returned has no result exactly when a failure befell it, and then it says
      which; otherwise it returns the very result that was put in its channel. */
  lemma {:induction false} ReturnsItsResultExactly(steps: seq<Step>, t: nat)
    requires Run(steps).Some? && t < |Run(steps).value.calls| && Run(steps).value.calls[t].pc.Returned?
    ensures var outcome := Run(steps).value.calls[t].pc.outcome;
            if FailureOf(steps, t).Some? then outcome == FailureOf(steps, t).value && !outcome.Answer?
            else DeliveryTo(steps, t).Some? && outcome == Answer(DeliveryTo(steps, t).value)
  {
    EveryCallIsTracked(steps, t);
    FailuresAreNoAnswers(steps, t);
    hide Run;
  }

  lemma {:induction false} FailuresAreNoAnswers(steps: seq<Step>, t: nat)
    requires Run(steps).Some?
    ensures FailureOf(steps, t).Some? ==> !FailureOf(steps, t).value.Answer?
  {
    if steps != [] {
      FailuresAreNoAnswers(steps[..|steps| - 1], t);
      hide Enabled;
    }
  }

  lemma HandingStays(s: State, step: Step, x: nat)
    requires Enabled(s, step) && x < |Apply(s, step).streams| && Apply(s, step).streams[x].pc.Handing?
    requires !(step.Receive? && step.stream == x)
    ensures x < |s.streams| && s.streams[x].pc == Apply(s, step).streams[x].pc
  {
  }

  lemma {:induction false} HandedArrived(steps: seq<Step>, x: nat)
    requires Run(steps).Some? && x < |Run(steps).value.streams| && Run(steps).value.streams[x].pc.Handing?
    ensures Receive(x, Run(steps).value.streams[x].pc.reply) in steps
  {
    var init, step := steps[..|steps| - 1], steps[|steps| - 1];
    var s := Run(init).value;
    if step.Receive? && step.stream == x {
      assert step in steps;
      assert s.streams[x].pc == Receiving;
    } else {
      HandingStays(s, step, x);
      HandedArrived(init, x);
      hide Apply, Enabled;
    }
  }

  lemma StreamStays(s: State, step: Step, t: nat)
    requires Enabled(s, step) && t < |s.calls| && CallOk(s, t) && s.calls[t].got != 0
    ensures Apply(s, step).calls[t].stream == s.calls[t].stream
  {
  }

  /** And the result that was put in its channel arrived in the run, on the call's own stream. */
  lemma {:induction false} ResultsArrived(steps: seq<Step>, t: nat)
    requires Run(steps).Some? && DeliveryTo(steps, t).Some?
    ensures t < |Run(steps).value.calls|
    ensures Receive(Run(steps).value.calls[t].stream, DeliveryTo(steps, t).value) in steps
  {
    var init, step := steps[..|steps| - 1], steps[|steps| - 1];
    var s := Run(init).value;
    EveryRunKeepsInv(init);
    if DeliveryBy(s, step, t).Some? {
      HandedArrived(init, step.stream);
      assert StreamOk(s, step.stream);
    } else {
      ResultsArrived(init, t);
      EveryCallIsTracked(init, t);
      assert CallOk(s, t);
      StreamStays(s, step, t);
      hide Apply, Enabled, Inv;
    }
  }

  /** The arguments executors began with, in order. */
  function Begun(steps: seq<Step>): seq<string> {
    if steps == [] then []
    else Begun(steps[..|steps| - 1]) + if steps[|steps| - 1].Begin? then [steps[|steps| - 1].args] else []
  }

  /** Every call is made with the arguments its executor began with. */
  lemma {:induction false} ArgumentsAreKept(steps: seq<Step>)
    requires Run(steps).Some?
    ensures var calls := Run(steps).value.calls;
            |calls| == |Begun(steps)| && forall t :: 0 <= t < |calls| ==> calls[t].args == Begun(steps)[t]
  {
    if steps != [] {
      ArgumentsAreKept(steps[..|steps| - 1]);
    }
  }

  // ---- no call is stuck ----------------------------------------------------------

  /** Steps a call is at most from returning. */
  function Left(pc: CallPc): nat {
    match pc
    case Started => 7
    case Picked => 6
    case Numbered => 5
    case Registered => 4
    case Sending => 3
    case Waiting => 2
    case Leaving(_) => 1
    case Returned(_) => 0
  }

  /** The step a call on an ended stream can always take. */
  function WayOut(pc: CallPc, t: nat): Step {
    match pc
    case Started => PickBot(t)
    case Picked => TakeId(t)
    case Numbered => Register(t)
    case Registered => LockSend(t)
    case Sending => FinishSend(t, false)
    case Waiting => SeeDone(t)
    case _ => Deregister(t)
  }

  predicate Owned(step: Step, t: nat) {
    (step.PickBot? || step.TakeId? || step.Register? || step.LockSend? || step.FinishSend? || step.TakeReply?
     || step.GiveUp? || step.SeeDone? || step.Deregister?) && step.call == t
  }

  lemma WayOutIsOpen(s: State, t: nat)
    requires Inv(s) && t < |s.calls| && s.calls[t].HasStream() && !s.calls[t].pc.Returned?
    ensures s.calls[t].stream < |s.streams|
    ensures s.streams[s.calls[t].stream].done ==>
              Enabled(s, WayOut(s.calls[t].pc, t)) && Owned(WayOut(s.calls[t].pc, t), t)
  {
    assert CallOk(s, t) && StreamOk(s, s.calls[t].stream);
  }

  lemma OnlyForward(s: State, t: nat, step: Step)
    requires t < |s.calls| && Enabled(s, step)
    ensures if Owned(step, t) then Left(Apply(s, step).calls[t].pc) < Left(s.calls[t].pc)
            else Apply(s, step).calls[t].pc == s.calls[t].pc
    ensures forall x :: 0 <= x < |s.streams| && s.streams[x].done ==> x < |Apply(s, step).streams| && Apply(s, step).streams[x].done
  {
  }

  /** Once a stream is done every call on it can step; each of a call's own steps brings it nearer to
      returning, nobody else's step moves it, and the stream stays done. */
  lemma {:induction false} DoneStreamDrains(s: State, t: nat, step: Step)
    requires Reachable(s) && t < |s.calls| && s.calls[t].HasStream() && !s.calls[t].pc.Returned?
    requires Enabled(s, step)
    ensures s.calls[t].stream < |s.streams|
    ensures s.streams[s.calls[t].stream].done ==>
              && Enabled(s, WayOut(s.calls[t].pc, t)) && Owned(WayOut(s.calls[t].pc, t), t)
              && Apply(s, step).streams[s.calls[t].stream].done
    ensures if Owned(step, t) then Left(Apply(s, step).calls[t].pc) < Left(s.calls[t].pc)
            else Apply(s, step).calls[t].pc == s.calls[t].pc
  {
    ReachableInv(s);
    WayOutIsOpen(s, t);
    OnlyForward(s, t, step);
    hide Inv, WayOut, Reachable, Enabled, Apply, Owned, Left;
  }
}
