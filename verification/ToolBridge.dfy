/** Both halves of the tool-call protocol: the server's executors and handlers
    (llm/server/tools.go) against the bot's serve loop, which runs one goroutine for each call
    it receives and sends one result back (discord-bot/network/tools.go). */
module ToolBridge {
  import opened CircularQueues
  import opened ToolCalls

  /** A call on its way down, or its result on its way up. Which executor it belongs to is only
      for the proofs, the wire carries the id and the text. */
  datatype Packet = Packet(stream: nat, call: nat, id: nat, text: string)

  /** The server, the packets in flight in each leg, in any order, and for each call id what its
      tool returned when it ran. */
  datatype System = System(server: State, down: multiset<Packet>, running: multiset<Packet>,
                           up: multiset<Packet>, ran: map<nat, string>)
  {
    function InFlight(): multiset<Packet> { down + running + up }
  }

  const START := System(INIT, multiset{}, multiset{}, multiset{}, map[])

  datatype Move =
    // any server step but a result arriving
    | Serve(step: Step)
    // the bot's receive loop starts a goroutine for a call
    | Fetch(p: Packet)
    // that goroutine ran its tool and sent the result
    | Finish(p: Packet, output: string)
    // the result reaches the handler
    | Arrive(p: Packet)

  function Result(p: Packet): Step {
    Receive(p.stream, Reply(p.id, p.text))
  }

  predicate Can(w: System, move: Move) {
    match move
    case Serve(step) => !step.Receive? && Enabled(w.server, step)
    case Fetch(p) => p in w.down
    case Finish(p, _) => p in w.running
    case Arrive(p) => p in w.up && Enabled(w.server, Result(p))
  }

  function Go(w: System, move: Move): System
    requires Can(w, move)
  {
    match move
    case Serve(step) =>
      var server := ToolCalls.Apply(w.server, step);
      if step.LockSend? && server.calls[step.call].pc.Sending? then
        // handed to the stream: it may arrive before Send returns, or never
        var c := server.calls[step.call];
        w.(server := server, down := w.down + multiset{Packet(c.stream, step.call, c.id, c.args)})
      else w.(server := server)
    case Fetch(p) => w.(down := w.down - multiset{p}, running := w.running + multiset{p})
    case Finish(p, output) =>
      w.(running := w.running - multiset{p}, up := w.up + multiset{p.(text := output)}, ran := w.ran[p.id := output])
    case Arrive(p) => w.(server := ToolCalls.Apply(w.server, Result(p)), up := w.up - multiset{p})
  }

  function Run(moves: seq<Move>): Option<System> {
    if moves == [] then Some(START)
    else match Run(moves[..|moves| - 1])
      case Some(w) => if Can(w, moves[|moves| - 1]) then Some(Go(w, moves[|moves| - 1])) else None
      case None => None
  }

  // ---- the invariant -------------------------------------------------------------

  predicate Sent(c: Call) {
    c.HasId() && !c.pc.Numbered? && !c.pc.Registered?
  }

  /** Its call has been sent on its stream and nothing has come back for it. */
  predicate Expected(s: State, p: Packet) {
    && p.call < |s.calls| && Sent(s.calls[p.call])
    && s.calls[p.call].id == p.id && s.calls[p.call].stream == p.stream
    && s.calls[p.call].got == 0 && !Handed(s, p.call)
  }

  /** A result that got as far as a call is what that call's tool returned. */
  predicate Genuine(w: System, t: nat)
    requires t < |w.server.calls|
  {
    var c := w.server.calls[t];
    && (c.slot.Some? ==> c.id in w.ran && c.slot.value.body == w.ran[c.id])
    && ((c.pc.Leaving? || c.pc.Returned?) && c.pc.outcome.Answer? ==> c.id in w.ran && c.pc.outcome.reply.body == w.ran[c.id])
    && (c.HasId() && !Sent(c) ==> c.id !in w.ran)
  }

  /** No packet is in flight twice, not even as a call and as its result. */
  predicate OncePerId(a: multiset<Packet>) {
    && (forall p :: p in a ==> a[p] == 1)
    && (forall p, q :: p in a && q in a && p.id == q.id ==> p == q)
  }

  predicate FlightOk(w: System) {
    && OncePerId(w.InFlight())
    && (forall p :: p in w.InFlight() ==> Expected(w.server, p))
    && (forall p :: p in w.down + w.running ==> p.id !in w.ran && p.text == w.server.calls[p.call].args)
    && (forall p :: p in w.up ==> p.id in w.ran && w.ran[p.id] == p.text)
  }

  lemma AddOne(a: multiset<Packet>, p: Packet)
    requires OncePerId(a) && forall q :: q in a ==> q.id != p.id
    ensures OncePerId(a + multiset{p})
    ensures forall q :: q in a + multiset{p} <==> q in a || q == p
  {
  }

  lemma DropOne(a: multiset<Packet>, p: Packet)
    requires OncePerId(a) && p in a
    ensures OncePerId(a - multiset{p})
    ensures forall q :: q in a - multiset{p} <==> q in a && q.id != p.id
  {
    assert forall q :: q in a - multiset{p} ==> q in a && q != p;
  }

  /** A result being handed over is what its call's tool returned. */
  predicate HandsGenuine(w: System, x: nat)
    requires x < |w.server.streams|
  {
    var b := w.server.streams[x];
    b.pc.Handing? ==> b.pc.reply.id in w.ran && w.ran[b.pc.reply.id] == b.pc.reply.body
  }

  predicate BridgeInv(w: System) {
    && Inv(w.server)
    && FlightOk(w)
    && (forall id :: id in w.ran ==> id <= w.server.nextID)
    && (forall t :: 0 <= t < |w.server.calls| ==> Genuine(w, t))
    && (forall x :: 0 <= x < |w.server.streams| ==> HandsGenuine(w, x))
  }

  // ---- what one server step can do to one call -----------------------------------

  predicate Undisturbed(s: State, s': State, t: nat) {
    && t < |s.calls| <= |s'.calls|
    && var c, c' := s.calls[t], s'.calls[t];
    && c'.args == c.args
    && (c.HasId() ==> c'.HasId() && c'.id == c.id && c'.stream == c.stream)
    && (Sent(c) ==> Sent(c'))
    && (Sent(c) && !Handed(s, t) ==> !Handed(s', t) && c'.got == c.got)
  }

  lemma ServeUndisturbed(s: State, step: Step, t: nat)
    requires Inv(s) && Enabled(s, step) && !step.Receive? && t < |s.calls|
    ensures Undisturbed(s, ToolCalls.Apply(s, step), t)
  {
    assert CallOk(s, t);
    assert step.Push? ==> StreamOk(s, step.stream);
  }

  lemma ServeLeavesPacket(s: State, step: Step, p: Packet)
    requires Inv(s) && Enabled(s, step) && !step.Receive? && Expected(s, p)
    ensures var s' := ToolCalls.Apply(s, step);
            Expected(s', p) && s'.calls[p.call].args == s.calls[p.call].args
  {
    ServeUndisturbed(s, step, p.call);
    hide ToolCalls.Apply, Inv, Enabled;
  }

  lemma ServeKeepsFlight(w: System, step: Step)
    requires BridgeInv(w) && Can(w, Serve(step))
    requires !(step.LockSend? && ToolCalls.Apply(w.server, step).calls[step.call].pc.Sending?)
    ensures FlightOk(Go(w, Serve(step)))
  {
    hide ToolCalls.Apply, Inv, Genuine, HandsGenuine, Enabled, OncePerId;
    var w' := Go(w, Serve(step));
    forall p | p in w.InFlight()
      ensures Expected(w'.server, p) && w'.server.calls[p.call].args == w.server.calls[p.call].args
    {
      ServeLeavesPacket(w.server, step, p);
    }
    hide Expected;
    assert w'.InFlight() == w.InFlight();
  }

  lemma SentIsExpected(w: System, step: Step)
    requires BridgeInv(w) && Can(w, Serve(step)) && step.LockSend?
    requires ToolCalls.Apply(w.server, step).calls[step.call].pc.Sending?
    ensures var c := w.server.calls[step.call];
            && c.id !in w.ran
            && Expected(ToolCalls.Apply(w.server, step), Packet(c.stream, step.call, c.id, c.args))
  {
    hide FlightOk;
    var c := w.server.calls[step.call];
    assert CallOk(w.server, step.call) && StreamOk(w.server, c.stream);
    assert Genuine(w, step.call) && HandsGenuine(w, c.stream);
  }

  lemma NewIdInFlight(w: System, p: Packet, t: nat)
    requires BridgeInv(w) && p in w.InFlight() && t < |w.server.calls| && w.server.calls[t].pc.Registered?
    ensures p.id != w.server.calls[t].id
  {
    assert Expected(w.server, p) && p.call != t;
  }

  lemma SendLeavesOthers(w: System, step: Step)
    requires BridgeInv(w) && Can(w, Serve(step)) && step.LockSend?
    ensures var s' := ToolCalls.Apply(w.server, step);
            forall p :: p in w.InFlight() ==>
              Expected(s', p) && s'.calls[p.call].args == w.server.calls[p.call].args && p.id != w.server.calls[step.call].id
  {
    var s' := ToolCalls.Apply(w.server, step);
    hide ToolCalls.Apply, OncePerId, Genuine, HandsGenuine;
    forall p | p in w.InFlight()
      ensures Expected(s', p) && s'.calls[p.call].args == w.server.calls[p.call].args && p.id != w.server.calls[step.call].id
    {
      NewIdInFlight(w, p, step.call);
      ServeLeavesPacket(w.server, step, p);
    }
  }

  lemma SendKeepsIds(w: System, step: Step)
    requires BridgeInv(w) && Can(w, Serve(step)) && step.LockSend?
    requires ToolCalls.Apply(w.server, step).calls[step.call].pc.Sending?
    ensures var w' := Go(w, Serve(step));
            OncePerId(w'.InFlight()) && forall p :: p in w'.InFlight() ==> Expected(w'.server, p)
  {
    var w', c := Go(w, Serve(step)), w.server.calls[step.call];
    var sent := Packet(c.stream, step.call, c.id, c.args);
    SentIsExpected(w, step);
    SendLeavesOthers(w, step);
    hide ToolCalls.Apply, Inv, Genuine, HandsGenuine, OncePerId, Expected;
    AddOne(w.InFlight(), sent);
    assert w'.InFlight() == w.InFlight() + multiset{sent};
  }

  lemma SendKeepsLegs(w: System, step: Step)
    requires BridgeInv(w) && Can(w, Serve(step)) && step.LockSend?
    requires ToolCalls.Apply(w.server, step).calls[step.call].pc.Sending?
    ensures var w' := Go(w, Serve(step));
            && (forall p :: p in w'.down + w'.running ==>
                  p.id !in w'.ran && p.call < |w'.server.calls| && p.text == w'.server.calls[p.call].args)
            && (forall p :: p in w'.up ==> p.id in w'.ran && w'.ran[p.id] == p.text)
  {
    var w', c := Go(w, Serve(step)), w.server.calls[step.call];
    var sent := Packet(c.stream, step.call, c.id, c.args);
    SentIsExpected(w, step);
    SendLeavesOthers(w, step);
    hide ToolCalls.Apply, Inv, Genuine, HandsGenuine, OncePerId;
    forall p | p in w'.down + w'.running
      ensures p.id !in w'.ran && p.call < |w'.server.calls| && p.text == w'.server.calls[p.call].args
    {
      assert p == sent || (p in w.down + w.running && p in w.InFlight());
    }
  }

  lemma SendKeepsFlight(w: System, step: Step)
    requires BridgeInv(w) && Can(w, Serve(step)) && step.LockSend?
    requires ToolCalls.Apply(w.server, step).calls[step.call].pc.Sending?
    ensures FlightOk(Go(w, Serve(step)))
  {
    SendKeepsIds(w, step);
    SendKeepsLegs(w, step);
    hide ToolCalls.Apply, Inv, Genuine, HandsGenuine, OncePerId, Expected;
  }

  lemma ServeKeepsOneGenuine(w: System, step: Step, t: nat)
    requires BridgeInv(w) && Can(w, Serve(step)) && t < |Go(w, Serve(step)).server.calls|
    ensures Genuine(Go(w, Serve(step)), t)
  {
    hide FlightOk, IdsDiffer, BotOk;
    assert step.Push? ==> StreamOk(w.server, step.stream) && HandsGenuine(w, step.stream);
    assert t < |w.server.calls| ==> Genuine(w, t) && CallOk(w.server, t);
  }

  lemma ServeKeepsGenuine(w: System, step: Step)
    requires BridgeInv(w) && Can(w, Serve(step))
    ensures var w' := Go(w, Serve(step));
            && (forall t :: 0 <= t < |w'.server.calls| ==> Genuine(w', t))
            && (forall x :: 0 <= x < |w'.server.streams| ==> HandsGenuine(w', x))
            && (forall id :: id in w'.ran ==> id <= w'.server.nextID)
  {
    hide FlightOk, IdsDiffer, BotOk;
    var w' := Go(w, Serve(step));
    forall t | 0 <= t < |w'.server.calls| ensures Genuine(w', t) {
      ServeKeepsOneGenuine(w, step, t);
    }
    hide Genuine, CallOk;
    forall x | 0 <= x < |w'.server.streams| ensures HandsGenuine(w', x) {
      assert x < |w.server.streams| ==> HandsGenuine(w, x);
    }
  }

  lemma ServeKeeps(w: System, step: Step)
    requires BridgeInv(w) && Can(w, Serve(step))
    ensures BridgeInv(Go(w, Serve(step)))
  {
    StepKeepsInv(w.server, step);
    ServeKeepsGenuine(w, step);
    if step.LockSend? && ToolCalls.Apply(w.server, step).calls[step.call].pc.Sending? {
      SendKeepsFlight(w, step);
    } else {
      ServeKeepsFlight(w, step);
    }
  }

  // ---- the bot's moves and arrivals ----------------------------------------------

  lemma FetchKeepsFlight(w: System, p: Packet)
    requires FlightOk(w) && Can(w, Fetch(p))
    ensures FlightOk(Go(w, Fetch(p)))
  {
    hide OncePerId, Expected;
    var w' := Go(w, Fetch(p));
    MoveOne(w.down, w.running, p);
    assert w'.InFlight() == w.InFlight();
  }

  lemma MoveOne(a: multiset<Packet>, b: multiset<Packet>, p: Packet)
    requires p in a
    ensures (a - multiset{p}) + (b + multiset{p}) == a + b
  {
  }

  lemma FetchKeeps(w: System, p: Packet)
    requires BridgeInv(w) && Can(w, Fetch(p))
    ensures BridgeInv(Go(w, Fetch(p)))
  {
    FetchKeepsFlight(w, p);
    hide Inv, FlightOk;
    var w' := Go(w, Fetch(p));
    forall t | 0 <= t < |w.server.calls| ensures Genuine(w', t) { assert Genuine(w, t); }
    forall x | 0 <= x < |w.server.streams| ensures HandsGenuine(w', x) { assert HandsGenuine(w, x); }
  }

  /** A running call's id is nowhere else in flight. */
  lemma Alone(w: System, p: Packet)
    requires OncePerId(w.InFlight()) && p in w.running
    ensures forall q :: q in w.down + (w.running - multiset{p}) || q in w.up ==> q.id != p.id
  {
    assert w.InFlight()[p] == 1;
    forall q | q in w.down + (w.running - multiset{p}) || q in w.up
      ensures q.id != p.id
    {
      assert q in w.InFlight() && p in w.InFlight() && q != p;
    }
  }

  lemma FinishKeepsFlight(w: System, p: Packet, output: string)
    requires BridgeInv(w) && Can(w, Finish(p, output))
    ensures FlightOk(Go(w, Finish(p, output)))
  {
    FinishKeepsFlightIds(w, p, output);
    FinishKeepsLegs(w, p, output);
  }

  lemma FinishKeepsFlightIds(w: System, p: Packet, output: string)
    requires FlightOk(w) && Can(w, Finish(p, output))
    ensures OncePerId(Go(w, Finish(p, output)).InFlight())
    ensures forall q :: q in Go(w, Finish(p, output)).InFlight() ==> Expected(w.server, q)
  {
    hide Handed, Sent, OncePerId;
    var done := p.(text := output);
    assert p in w.InFlight() && Expected(w.server, p);
    DropOne(w.InFlight(), p);
    AddOne(w.InFlight() - multiset{p}, done);
    assert Go(w, Finish(p, output)).InFlight() == w.InFlight() - multiset{p} + multiset{done};
  }

  lemma FinishKeepsLegs(w: System, p: Packet, output: string)
    requires FlightOk(w) && Can(w, Finish(p, output))
    ensures var w' := Go(w, Finish(p, output));
            && (forall q :: q in w'.down + w'.running ==>
                  q.id !in w'.ran && q.call < |w.server.calls| && q.text == w.server.calls[q.call].args)
            && (forall q :: q in w'.up ==> q.id in w'.ran && w'.ran[q.id] == q.text)
  {
    hide Handed, Sent, OncePerId;
    Alone(w, p);
    var w' := Go(w, Finish(p, output));
    forall q | q in w'.down + w'.running
      ensures q.id !in w'.ran && q.call < |w.server.calls| && q.text == w.server.calls[q.call].args
    {
      assert q in w.down + w.running && q in w.InFlight() && Expected(w.server, q);
    }
  }

  lemma FinishKeeps(w: System, p: Packet, output: string)
    requires BridgeInv(w) && Can(w, Finish(p, output))
    ensures BridgeInv(Go(w, Finish(p, output)))
  {
    FinishKeepsFlight(w, p, output);
    assert p in w.InFlight() && p in w.down + w.running && Expected(w.server, p);
    assert CallOk(w.server, p.call);
    FinishKeepsGenuine(w, p, output);
    hide FlightOk, Inv, Genuine, HandsGenuine;
  }

  lemma FinishKeepsGenuine(w: System, p: Packet, output: string)
    requires BridgeInv(w) && Can(w, Finish(p, output)) && p.id !in w.ran
    requires p.call < |w.server.calls| && Sent(w.server.calls[p.call]) && w.server.calls[p.call].id == p.id
    ensures var w' := Go(w, Finish(p, output));
            && (forall t :: 0 <= t < |w'.server.calls| ==> Genuine(w', t))
            && (forall x :: 0 <= x < |w'.server.streams| ==> HandsGenuine(w', x))
  {
    hide FlightOk, CallOk, StreamOk, BotOk;
    var w' := Go(w, Finish(p, output));
    forall t | 0 <= t < |w.server.calls| ensures Genuine(w', t) { assert Genuine(w, t); }
    forall x | 0 <= x < |w.server.streams| ensures HandsGenuine(w', x) { assert HandsGenuine(w, x); }
  }

  lemma ArrivalLeavesOthers(w: System, p: Packet, q: Packet)
    requires BridgeInv(w) && Can(w, Arrive(p)) && q in w.InFlight() && q.id != p.id
    ensures Expected(ToolCalls.Apply(w.server, Result(p)), q)
    ensures ToolCalls.Apply(w.server, Result(p)).calls == w.server.calls
  {
    assert Expected(w.server, q) && StreamOk(w.server, p.stream);
  }

  lemma ArriveKeepsIds(w: System, p: Packet)
    requires BridgeInv(w) && Can(w, Arrive(p))
    ensures var w' := Go(w, Arrive(p));
            && OncePerId(w'.InFlight())
            && forall q :: q in w'.InFlight() ==> q in w.InFlight() && q.id != p.id
  {
    hide Inv, Genuine, HandsGenuine, OncePerId, ToolCalls.Apply, Expected;
    assert p in w.InFlight();
    DropOne(w.InFlight(), p);
    assert Go(w, Arrive(p)).InFlight() == w.InFlight() - multiset{p};
  }

  lemma ArriveKeepsFlight(w: System, p: Packet)
    requires BridgeInv(w) && Can(w, Arrive(p))
    ensures FlightOk(Go(w, Arrive(p)))
  {
    var w' := Go(w, Arrive(p));
    ArriveKeepsIds(w, p);
    forall q | q in w'.InFlight()
      ensures Expected(w'.server, q) && w'.server.calls == w.server.calls
    {
      ArrivalLeavesOthers(w, p, q);
    }
    hide Inv, Genuine, HandsGenuine, OncePerId, ToolCalls.Apply, Expected, Enabled;
  }

  lemma ArriveKeeps(w: System, p: Packet)
    requires BridgeInv(w) && Can(w, Arrive(p))
    ensures BridgeInv(Go(w, Arrive(p)))
  {
    hide Inv, FlightOk, Genuine, HandsGenuine, ToolCalls.Apply;
    StepKeepsInv(w.server, Result(p));
    ArriveKeepsFlight(w, p);
    ArriveKeepsGenuine(w, p);
  }

  lemma ArriveKeepsGenuine(w: System, p: Packet)
    requires BridgeInv(w) && Can(w, Arrive(p))
    ensures var w' := Go(w, Arrive(p));
            && (forall t :: 0 <= t < |w'.server.calls| ==> Genuine(w', t))
            && (forall x :: 0 <= x < |w'.server.streams| ==> HandsGenuine(w', x))
            && (forall id :: id in w'.ran ==> id <= w'.server.nextID)
  {
    UpIsGenuine(w, p);
    hide Inv, FlightOk, Sent;
    var w' := Go(w, Arrive(p));
    forall t | 0 <= t < |w'.server.calls| ensures Genuine(w', t) { assert Genuine(w, t); }
    forall x | 0 <= x < |w'.server.streams| ensures HandsGenuine(w', x) { assert HandsGenuine(w, x); }
  }

  lemma UpIsGenuine(w: System, p: Packet)
    requires FlightOk(w) && p in w.up
    ensures p.id in w.ran && w.ran[p.id] == p.text
  {
  }

  lemma {:induction false} EveryRunKeepsBridge(moves: seq<Move>)
    requires Run(moves).Some?
    ensures BridgeInv(Run(moves).value)
  {
    if moves != [] {
      var w, move := Run(moves[..|moves| - 1]).value, moves[|moves| - 1];
      EveryRunKeepsBridge(moves[..|moves| - 1]);
      match move
      case Serve(step) => ServeKeeps(w, step);
      case Fetch(p) => FetchKeeps(w, p);
      case Finish(p, output) => FinishKeeps(w, p, output);
      case Arrive(p) => ArriveKeeps(w, p);
    }
  }

  ghost predicate Reached(w: System) {
    exists moves :: Run(moves) == Some(w)
  }

  lemma ReachedInv(w: System)
    requires Reached(w)
    ensures BridgeInv(w)
  {
    var moves :| Run(moves) == Some(w);
    EveryRunKeepsBridge(moves);
  }

  // ---- end to end ----------------------------------------------------------------

  /** An executor that returns a result returns what the bot's tool returned for that very call. */
  lemma AnswerIsTheToolsOwn(w: System, t: nat)
    requires Reached(w) && t < |w.server.calls| && Answered(w.server.calls[t])
    ensures var c := w.server.calls[t];
            c.id in w.ran && c.pc.outcome.reply == Reply(c.id, w.ran[c.id])
  {
    ReachedInv(w);
    assert Genuine(w, t) && CallOk(w.server, t);
  }

  /** A tool about to run runs on its own call's arguments, and has never run for that call before. */
  lemma ToolRunsAtMostOnce(w: System, p: Packet, output: string)
    requires Reached(w) && Can(w, Finish(p, output))
    ensures p.call < |w.server.calls| && w.server.calls[p.call].id == p.id && w.server.calls[p.call].args == p.text
    ensures p.id !in w.ran
  {
    ReachedInv(w);
    assert p in w.InFlight() && p in w.down + w.running && Expected(w.server, p);
  }

  lemma ReceiveResolves(s: State, p: Packet)
    requires Inv(s) && Expected(s, p) && Enabled(s, Result(p))
    ensures if s.calls[p.call].pc.Returned? then ToolCalls.Apply(s, Result(p)) == s
            else ToolCalls.Apply(s, Result(p)).streams[p.stream].pc == Handing(p.call, Reply(p.id, p.text))
  {
    assert CallOk(s, p.call) && StreamOk(s, p.stream);
    var pending := s.streams[p.stream].pending;
    assert p.id in pending ==> pending[p.id] == p.call && s.calls[p.call].InTable();
  }

  /** With the bot's one result per call, a result that arrives is dropped exactly when its call has
      already returned: it never races past a call that is still waiting. */
  lemma {:induction false} NoResultIsWasted(w: System, p: Packet)
    requires Reached(w) && Can(w, Arrive(p)) && p.call < |w.server.calls|
    ensures var s := ToolCalls.Apply(w.server, Result(p));
            if w.server.calls[p.call].pc.Returned? then s == w.server
            else p.stream < |s.streams| && s.streams[p.stream].pc == Handing(p.call, Reply(p.id, p.text))
  {
    ReachedInv(w);
    assert p in w.InFlight() && Expected(w.server, p);
    hide ToolCalls.Apply, FlightOk, Genuine, HandsGenuine, Inv, Handed;
    ReceiveResolves(w.server, p);
  }

  // ---- a call that goes well -----------------------------------------------------

  lemma OneMove(moves: seq<Move>, w: System, move: Move)
    requires Run(moves) == Some(w) && Can(w, move)
    ensures Run(moves + [move]) == Some(Go(w, move))
  {
    assert (moves + [move])[..|moves|] == moves;
    hide Can, Go;
  }

  /** A server step that sends nothing. */
  lemma OneStep(moves: seq<Move>, w: System, step: Step, s: State)
    requires Run(moves) == Some(w) && Enabled(w.server, step) && !step.Receive? && !step.LockSend?
    requires ToolCalls.Apply(w.server, step) == s
    ensures Run(moves + [Serve(step)]) == Some(w.(server := s))
  {
    OneMove(moves, w, Serve(step));
    hide Run, ToolCalls.Apply, Enabled;
  }

  /** One stream, installed, and one call on it. */
  function OneCall(call: Call, stream: Stream, nextID: nat): State {
    State([call], [stream], Some(0), nextID, [0])
  }

  const IDLE := Stream(Receiving, None, false, false, map[])

  lemma StreamIsOpen() returns (moves: seq<Move>)
    ensures Run(moves) == Some(START.(server := State([], [IDLE], Some(0), 0, [0])))
  {
    moves := [];
    assert Run(moves) == Some(START);
    var s := State([], [IDLE.(pc := Opened)], None, 0, []);
    assert ToolCalls.Apply(INIT, Open) == s;
    OneStep(moves, START, Open, s);
    moves := moves + [Serve(Open)];
    var s' := State([], [IDLE], Some(0), 0, [0]);
    assert ToolCalls.Apply(s, Install(0)) == s' by { assert [IDLE.(pc := Opened)][0 := IDLE] == [IDLE]; }
    OneStep(moves, START.(server := s), Install(0), s');
    moves := moves + [Serve(Install(0))];
  }

  lemma CallHasItsId(args: string) returns (moves: seq<Move>)
    ensures Run(moves) == Some(START.(server := OneCall(Call(args, Numbered, 1, 0, None, 0), IDLE, 1)))
  {
    hide Run;
    moves := StreamIsOpen();
    var s0 := State([], [IDLE], Some(0), 0, [0]);
    var c := Call(args, Started, 0, 0, None, 0);
    assert ToolCalls.Apply(s0, Begin(args)) == OneCall(c, IDLE, 0);
    OneStep(moves, START.(server := s0), Begin(args), OneCall(c, IDLE, 0));
    moves := moves + [Serve(Begin(args))];
    var c1 := c.(pc := Picked);
    assert ToolCalls.Apply(OneCall(c, IDLE, 0), PickBot(0)) == OneCall(c1, IDLE, 0) by { assert [c][0 := c1] == [c1]; }
    OneStep(moves, START.(server := OneCall(c, IDLE, 0)), PickBot(0), OneCall(c1, IDLE, 0));
    moves := moves + [Serve(PickBot(0))];
    var c2 := c1.(pc := Numbered, id := 1);
    assert ToolCalls.Apply(OneCall(c1, IDLE, 0), TakeId(0)) == OneCall(c2, IDLE, 1) by { assert [c1][0 := c2] == [c2]; }
    OneStep(moves, START.(server := OneCall(c1, IDLE, 0)), TakeId(0), OneCall(c2, IDLE, 1));
    moves := moves + [Serve(TakeId(0))];
  }

  lemma SendTakesTheLock(args: string)
    ensures var c, b := Call(args, Registered, 1, 0, None, 0), IDLE.(pending := map[1 := 0]);
            var w := START.(server := OneCall(c, b, 1));
            && Can(w, Serve(LockSend(0)))
            && Go(w, Serve(LockSend(0))) == w.(server := OneCall(c.(pc := Sending), b.(sender := Some(0)), 1),
                                               down := multiset{Packet(0, 0, 1, args)})
  {
    var c, b := Call(args, Registered, 1, 0, None, 0), IDLE.(pending := map[1 := 0]);
    assert [c][0 := c.(pc := Sending)] == [c.(pc := Sending)];
    assert [b][0 := b.(sender := Some(0))] == [b.(sender := Some(0))];
  }

  lemma CallIsSent(args: string) returns (moves: seq<Move>)
    ensures Run(moves) == Some(System(OneCall(Call(args, Waiting, 1, 0, None, 0), IDLE.(pending := map[1 := 0]), 1),
                                      multiset{Packet(0, 0, 1, args)}, multiset{}, multiset{}, map[]))
  {
    hide Run;
    moves := CallHasItsId(args);
    var c, b := Call(args, Numbered, 1, 0, None, 0), IDLE.(pending := map[1 := 0]);
    var c1, c2, c3, b2 := c.(pc := Registered), c.(pc := Sending), c.(pc := Waiting), b.(sender := Some(0));
    assert ToolCalls.Apply(OneCall(c, IDLE, 1), Register(0)) == OneCall(c1, b, 1) by {
      assert [c][0 := c1] == [c1] && [IDLE][0 := b] == [b];
    }
    OneStep(moves, START.(server := OneCall(c, IDLE, 1)), Register(0), OneCall(c1, b, 1));
    moves := moves + [Serve(Register(0))];
    SendTakesTheLock(args);
    OneMove(moves, START.(server := OneCall(c1, b, 1)), Serve(LockSend(0)));
    moves := moves + [Serve(LockSend(0))];
    hide Go, Can;
    assert ToolCalls.Apply(OneCall(c2, b2, 1), FinishSend(0, true)) == OneCall(c3, b, 1) by {
      assert [c2][0 := c3] == [c3] && [b2][0 := b] == [b];
    }
    var w := START.(server := OneCall(c2, b2, 1), down := multiset{Packet(0, 0, 1, args)});
    OneStep(moves, w, FinishSend(0, true), OneCall(c3, b, 1));
    moves := moves + [Serve(FinishSend(0, true))];
  }

  lemma ToolHasRun(args: string, output: string) returns (moves: seq<Move>)
    ensures Run(moves) == Some(System(OneCall(Call(args, Waiting, 1, 0, None, 0), IDLE.(pending := map[1 := 0]), 1),
                                      multiset{}, multiset{}, multiset{Packet(0, 0, 1, output)}, map[1 := output]))
  {
    hide Run, ToolCalls.Apply, OneCall;
    moves := CallIsSent(args);
    var p, w := Packet(0, 0, 1, args), Run(moves).value;
    OneMove(moves, w, Fetch(p));
    moves := moves + [Fetch(p)];
    var w1 := w.(down := multiset{}, running := multiset{p});
    assert Go(w, Fetch(p)) == w1;
    OneMove(moves, w1, Finish(p, output));
    moves := moves + [Finish(p, output)];
    assert Go(w1, Finish(p, output)) == w1.(running := multiset{}, up := multiset{p.(text := output)}, ran := map[1 := output]);
  }

  lemma ResultArrives(args: string, output: string) returns (moves: seq<Move>)
    ensures Run(moves) == Some(System(OneCall(Call(args, Waiting, 1, 0, None, 0), IDLE.(pc := Handing(0, Reply(1, output))), 1),
                                      multiset{}, multiset{}, multiset{}, map[1 := output]))
  {
    hide Run;
    moves := ToolHasRun(args, output);
    var q, c := Packet(0, 0, 1, output), Call(args, Waiting, 1, 0, None, 0);
    var b, b' := IDLE.(pending := map[1 := 0]), IDLE.(pc := Handing(0, Reply(1, output)));
    var w := System(OneCall(c, b, 1), multiset{}, multiset{}, multiset{q}, map[1 := output]);
    OneMove(moves, w, Arrive(q));
    moves := moves + [Arrive(q)];
    assert ToolCalls.Apply(w.server, Result(q)) == OneCall(c, b', 1) by {
      assert b.pending - {1} == map[] && [b][0 := b'] == [b'];
    }
    assert Go(w, Arrive(q)) == w.(server := OneCall(c, b', 1), up := multiset{});
  }

  /** Results do come back: for any arguments and any output of the tool, a run in which the executor returns
      that output. */
  lemma AnExecutorCanSucceed(args: string, output: string) returns (moves: seq<Move>)
    ensures Run(moves).Some?
    ensures var s := Run(moves).value.server;
            |s.calls| == 1 && s.calls[0].args == args && s.calls[0].pc == Returned(Answer(Reply(1, output)))
  {
    hide Run;
    moves := ResultArrives(args, output);
    var c, b := Call(args, Waiting, 1, 0, None, 0), IDLE.(pc := Handing(0, Reply(1, output)));
    var w := System(OneCall(c, b, 1), multiset{}, multiset{}, multiset{}, map[1 := output]);
    var c1 := c.(slot := Some(Reply(1, output)), got := 1);
    assert ToolCalls.Apply(w.server, Push(0)) == OneCall(c1, IDLE, 1) by {
      assert [c][0 := c1] == [c1] && [b][0 := IDLE] == [IDLE];
    }
    OneStep(moves, w, Push(0), OneCall(c1, IDLE, 1));
    moves := moves + [Serve(Push(0))];
    var c2 := c1.(pc := Leaving(Answer(Reply(1, output))), slot := None);
    assert ToolCalls.Apply(OneCall(c1, IDLE, 1), TakeReply(0)) == OneCall(c2, IDLE, 1) by { assert [c1][0 := c2] == [c2]; }
    OneStep(moves, w.(server := OneCall(c1, IDLE, 1)), TakeReply(0), OneCall(c2, IDLE, 1));
    moves := moves + [Serve(TakeReply(0))];
    var c3 := c2.(pc := Returned(Answer(Reply(1, output))));
    assert ToolCalls.Apply(OneCall(c2, IDLE, 1), Deregister(0)) == OneCall(c3, IDLE, 1) by {
      assert [c2][0 := c3] == [c3] && IDLE.pending - {1} == map[] && [IDLE][0 := IDLE] == [IDLE];
    }
    OneStep(moves, w.(server := OneCall(c2, IDLE, 1)), Deregister(0), OneCall(c3, IDLE, 1));
    moves := moves + [Serve(Deregister(0))];
  }
}
