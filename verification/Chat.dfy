/** A channel's history (llm/memory/shortterm.go) and the chat loop over it: rounds of tool calls
    and models that decline, in one loop (Chat in llm/model/brain.go). */
module Chats {
  import opened CircularQueues
  import opened Rotations
  import opened Failovers
  import opened Sorting
  import opened Transcripts
  import Ids = ToolIds

  // ---- the history ---------------------------------------------------------------

  predicate OldestFirst(ms: seq<Memory>) {
    InOrder(ms, (m: Memory) => m.createdAt)
  }

  class ShortTermMemory {
    const memories: CircularQueue<Memory>

    ghost predicate Valid()
      reads memories
    {
      memories.Valid()
    }

    ghost function Held(): seq<Memory>
      requires Valid()
      reads memories, memories.slots
    {
      memories.Contents()
    }

    constructor (memories: CircularQueue<Memory>)
      requires memories.Valid()
      ensures this.memories == memories && Valid()
    {
      this.memories := memories;
    }

    method Store(m: Memory) returns (last: Memory, evicted: bool)
      requires Valid()
      modifies memories, memories.slots
      ensures Valid() && Held() == Pushed(old(Held()), memories.capacity, m)
      ensures evicted <==> |old(Held())| == memories.capacity
      ensures old(Held()) + [m] == (if evicted then [last] else []) + Held()
    {
      last, evicted := memories.Enqueue(m);
    }

    /** A copy, sorted by time; memories made at the same instant may come in any order. */
    method Ordered() returns (items: seq<Memory>)
      requires Valid()
      ensures OldestFirst(items) && multiset(items) == multiset(Held())
    {
      items := memories.Items();
      items := Sort(items, (m: Memory) => m.createdAt);
    }
  }

  // ---- what the models may do ----------------------------------------------------

  const MAX_TOOL_ROUNDS := 2

  /** How one completion request ends. The calls of a message carry what their tools returned. */
  datatype Completion = Broken | NoChoices | Says(content: string, calls: seq<ToolCall>)

  /** One completion request: the model, the messages and whether tools were offered. */
  datatype Ask = Ask(model: nat, messages: seq<Message>, offered: bool)

  predicate IsSpace(c: char) {
    var n := c as int;
    9 <= n <= 13 || n == 0x20 || n == 0x85 || n == 0xA0 || n == 0x1680 || 0x2000 <= n <= 0x200A
    || n == 0x2028 || n == 0x2029 || n == 0x202F || n == 0x205F || n == 0x3000
  }

  function TrimSpace(s: string): string {
    if s == [] then []
    else if IsSpace(s[0]) then TrimSpace(s[1..])
    else if IsSpace(s[|s| - 1]) then TrimSpace(s[..|s| - 1])
    else s
  }

  predicate AllSpace(s: string) {
    forall i :: 0 <= i < |s| ==> IsSpace(s[i])
  }

  lemma SpaceJoins(c: char, s: string)
    requires IsSpace(c) && AllSpace(s)
    ensures AllSpace([c] + s) && AllSpace(s + [c])
  {
    hide IsSpace;
  }

  /** Trimming takes white space off both ends and nothing else. */
  lemma {:induction false} TrimSpaceTrims(s: string) returns (before: string, after: string)
    ensures s == before + TrimSpace(s) + after && AllSpace(before) && AllSpace(after)
    ensures var t := TrimSpace(s); t != [] ==> !IsSpace(t[0]) && !IsSpace(t[|t| - 1])
    decreases |s|
  {
    hide IsSpace;
    before, after := [], [];
    if s != [] && IsSpace(s[0]) {
      before, after := TrimSpaceTrims(s[1..]);
      hide AllSpace;
      SpaceJoins(s[0], before);
      before := [s[0]] + before;
      assert s == [s[0]] + s[1..];
    } else if s != [] && IsSpace(s[|s| - 1]) {
      before, after := TrimSpaceTrims(s[..|s| - 1]);
      hide AllSpace;
      SpaceJoins(s[|s| - 1], after);
      after := after + [s[|s| - 1]];
      assert s == s[..|s| - 1] + [s[|s| - 1]];
    }
  }

  /** The k-th completion; a script that has run out fails, as an ended context does. */
  function Nth(script: seq<Completion>, k: nat): Completion {
    if k < |script| then script[k] else Broken
  }

  function ToolRounds(script: seq<Completion>, k: nat): nat
    requires k <= |script|
  {
    if k == 0 then 0
    else ToolRounds(script, k - 1) + if script[k - 1].Says? && script[k - 1].calls != [] then 1 else 0
  }

  /** The models that had said nothing by the k-th completion. */
  function Declined(script: seq<Completion>, k: nat): nat
    requires k <= |script|
  {
    if k == 0 then 0
    else Declined(script, k - 1) + if script[k - 1].Says? && script[k - 1].calls == [] then 1 else 0
  }

  function Called(script: seq<Completion>, k: nat): seq<ToolCall>
    requires k <= |script|
  {
    if k == 0 then []
    else Called(script, k - 1) + if script[k - 1].Says? then script[k - 1].calls else []
  }

  /** The messages a conversation has gained by the k-th completion. */
  function Live(script: seq<Completion>, k: nat): seq<Message>
    requires k <= |script|
  {
    if k == 0 then []
    else Live(script, k - 1) + if script[k - 1].Says? then Round(script[k - 1].content, script[k - 1].calls) else []
  }

  /** A completion after which the loop asks again: it calls tools, or says nothing with models left. */
  predicate GoesOn(c: Completion, declined: nat, models: nat) {
    c.Says? && (c.calls != [] || (TrimSpace(c.content) == "" && declined + 1 < models))
  }

  /** The completion, from the k-th on, that ends the loop. */
  function Stop(script: seq<Completion>, k: nat, models: nat): (r: nat)
    requires k <= |script|
    ensures k <= r <= |script| && !GoesOn(Nth(script, r), Declined(script, r), models)
    ensures forall j :: k <= j < r ==> GoesOn(script[j], Declined(script, j), models)
    decreases |script| - k
  {
    if k < |script| && GoesOn(script[k], Declined(script, k), models) then Stop(script, k + 1, models) else k
  }

  function ProviderIds(calls: seq<ToolCall>): (r: seq<string>)
    ensures |r| == |calls|
  {
    seq(|calls|, i requires 0 <= i < |calls| => calls[i].id)
  }

  /** The calls as they are stored: as executed, under their stored ids. */
  function Kept(calls: seq<ToolCall>): (r: seq<ToolCall>)
    ensures |r| == |calls|
  {
    var ids := Ids.Stored(ProviderIds(calls));
    seq(|calls|, i requires 0 <= i < |calls| => calls[i].(id := ids[i]))
  }

  /** Calls are kept as executed, each under the stored form of its provider's id. */
  lemma CallsAreKept(calls: seq<ToolCall>, i: nat)
    requires i < |calls|
    ensures ProviderIds(Kept(calls)) == Ids.Stored(ProviderIds(calls))
    ensures var kept := Kept(calls)[i];
            kept.name == calls[i].name && kept.arguments == calls[i].arguments && kept.result == calls[i].result
  {
    hide Ids.Stored;
  }

  lemma KeptOneMore(calls: seq<ToolCall>, call: ToolCall, taken: set<string>)
    requires forall id :: id in taken <==> id in Ids.Stored(ProviderIds(calls))
    ensures var id := if call.id in taken then Ids.Renamed(call.id, |calls|) else call.id;
            && Kept(calls + [call]) == Kept(calls) + [call.(id := id)]
            && forall x :: x in taken + {id} <==> x in Ids.Stored(ProviderIds(calls + [call]))
  {
    assert ProviderIds(calls + [call])[..|calls|] == ProviderIds(calls);
  }

  // ---- the loop ------------------------------------------------------------------

  /** Answers one message's calls: each result goes into the messages under the provider's id and
      into the reply's calls under an id of its own. */
  method CallTools(before: seq<Message>, content: string, turn: seq<ToolCall>, calls: seq<ToolCall>, ids: set<string>,
                   ghost executed: seq<ToolCall>)
    returns (messages: seq<Message>, calls': seq<ToolCall>, ids': set<string>)
    requires turn != [] && calls == Kept(executed)
    requires forall id :: id in ids <==> id in Ids.Stored(ProviderIds(executed))
    ensures messages == before + Round(content, turn)
    ensures calls' == Kept(executed + turn)
    ensures forall id :: id in ids' <==> id in Ids.Stored(ProviderIds(executed + turn))
  {
    hide Ids.Stored, Kept;
    messages, calls', ids' := before + [AssistantCalls(content, Requests(turn))], calls, ids;
    ghost var start := messages;
    assert executed + turn[..0] == executed;
    for i := 0 to |turn|
      invariant messages == start + Results(turn)[..i]
      invariant calls' == Kept(executed + turn[..i])
      invariant forall id :: id in ids' <==> id in Ids.Stored(ProviderIds(executed + turn[..i]))
    {
      messages := messages + [Tool(turn[i].result, turn[i].id)];
      var id := turn[i].id;
      if id in ids' {
        id := Ids.Renamed(id, |calls'|);
      }
      KeptOneMore(executed + turn[..i], turn[i], ids');
      ids' := ids' + {id};
      calls' := calls' + [turn[i].(id := id)];
      assert executed + turn[..i + 1] == executed + turn[..i] + [turn[i]];
    }
    assert turn[..|turn|] == turn;
  }

  /** The reply as a memory. */
  function Reply(text: string, calls: seq<ToolCall>, now: Time): Memory {
    Memory(now, [], text, Self, Kept(calls))
  }

  /** What a call of Chat leaves in the history: a reply with something in it is one memory, an empty
      reply without calls and a failed one leave no trace. */
  function Remembered(held: seq<Memory>, capacity: nat, script: seq<Completion>, k: nat, now: Time): seq<Memory>
    requires k <= |script| && 0 < capacity
  {
    match Nth(script, k)
    case Says(content, _) =>
      if TrimSpace(content) == "" && Called(script, k) == [] then held
      else Pushed(held, capacity, Reply(TrimSpace(content), Called(script, k), now))
    case _ => held
  }

  /** What is remembered is the reply that is returned, under the bot's own name, after all that was held but
      the oldest if the history is full; when neither words nor calls came of it, nothing. */
  lemma RepliesAreRemembered(held: seq<Memory>, capacity: nat, script: seq<Completion>, k: nat, now: Time)
    requires k <= |script| && 0 < capacity && |held| <= capacity
    ensures var after := Remembered(held, capacity, script, k, now);
            if Nth(script, k).Says? && (TrimSpace(Nth(script, k).content) != "" || Called(script, k) != []) then
              && after != [] && after[|after| - 1].owner.Self? && after[|after| - 1].createdAt == now
              && after[|after| - 1].content == TrimSpace(Nth(script, k).content)
              && Deeds(after[|after| - 1].toolCalls) == Deeds(Called(script, k))
              && after[..|after| - 1] == if |held| < capacity then held else held[1..]
            else after == held
  {
    hide Ids.Stored, TrimSpace, Called;
    var calls := Called(script, k);
    assert Deeds(Kept(calls)) == Deeds(calls);
  }

  lemma AfterNone(st: Rotations.State, times: Schedule, parole: int)
    requires st.Valid()
    ensures After(st, times, parole, 0) == st
  {
  }

  lemma AfterOneMore(st: Rotations.State, times: Schedule, parole: int, k: nat)
    requires st.Valid() && 0 < k <= |times|
    ensures var s := After(st, times, parole, k - 1);
            After(st, times, parole, k) == Failed(s, s.selected, times[k - 1].0, times[k - 1].1, parole)
  {
  }

  lemma StopStep(script: seq<Completion>, k: nat, models: nat)
    requires k <= |script|
    ensures var goes := GoesOn(Nth(script, k), Declined(script, k), models);
            && (goes ==> k < |script| && Stop(script, k, models) == Stop(script, k + 1, models))
            && (!goes ==> Stop(script, k, models) == k)
  {
  }

  /** The request that would be made at the j-th completion, of a chat that began with these messages. */
  function AskAt(first: seq<Message>, script: seq<Completion>, j: nat, st: Rotations.State, times: Schedule,
                 parole: int, toolsOn: bool): Ask
    requires st.Valid() && j <= |script| && Declined(script, j) <= |times|
  {
    Ask(After(st, times, parole, Declined(script, j)).selected, first + Live(script, j),
        toolsOn && ToolRounds(script, j) < MAX_TOOL_ROUNDS)
  }

  lemma {:induction false} LiveWellFormed(first: seq<Message>, script: seq<Completion>, j: nat)
    requires WellFormed(first) && j <= |script|
    ensures WellFormed(first + Live(script, j))
  {
    hide WellFormed, Round;
    if j == 0 {
      assert first + Live(script, 0) == first;
    } else {
      LiveWellFormed(first, script, j - 1);
      var was := first + Live(script, j - 1);
      if script[j - 1].Says? {
        var round := Round(script[j - 1].content, script[j - 1].calls);
        RoundWellFormed(script[j - 1].content, script[j - 1].calls);
        JoinWellFormed(was, round);
        assert first + Live(script, j) == was + round;
      } else {
        assert first + Live(script, j) == was;
      }
    }
  }

  lemma AsksAs(first: seq<Message>, script: seq<Completion>, j: nat, st: Rotations.State, times: Schedule,
               parole: int, toolsOn: bool)
    requires st.Valid() && j <= |script| && Declined(script, j) <= |times|
    ensures AskAt(first, script, j, st, times, parole, toolsOn)
            == Ask(After(st, times, parole, Declined(script, j)).selected, first + Live(script, j),
                   toolsOn && ToolRounds(script, j) < MAX_TOOL_ROUNDS)
  {
  }

  /** The first request goes to the selected model, with the messages the chat began with. */
  lemma FirstRequest(first: seq<Message>, script: seq<Completion>, st: Rotations.State, times: Schedule, parole: int, toolsOn: bool)
    requires st.Valid()
    ensures var ask := AskAt(first, script, 0, st, times, parole, toolsOn);
            ask.messages == first && ask.model == st.selected && ask.offered == toolsOn
  {
    FirstTurn(first, script);
    AfterNone(st, times, parole);
    hide After, Live;
  }

  /** After a decline the next request has the very same messages, and goes to the model selected once the one
      that declined was benched. */
  lemma DeclinesCarryOn(first: seq<Message>, script: seq<Completion>, j: nat, st: Rotations.State, times: Schedule,
                        parole: int, toolsOn: bool)
    requires st.Valid() && j < |script| && Declined(script, j + 1) <= |times| && script[j].Says? && script[j].calls == []
    ensures var d, a := Declined(script, j), AskAt(first, script, j, st, times, parole, toolsOn);
            var b := AskAt(first, script, j + 1, st, times, parole, toolsOn);
            && b.messages == a.messages && b.offered == a.offered
            && d < |times| && b.model == Failed(After(st, times, parole, d), a.model, times[d].0, times[d].1, parole).selected
  {
    hide After, Failed, Round, Live, Declined, Called, ToolRounds;
    NextTurn(first, script, j);
    AfterOneMore(st, times, parole, Declined(script, j) + 1);
    assert first + Live(script, j) + [] == first + Live(script, j);
  }

  /** After a round of tools it goes to the same model, with the message that made the calls, text and all, and
      with every result under its call's id. */
  lemma RoundsCarryOn(first: seq<Message>, script: seq<Completion>, j: nat, st: Rotations.State, times: Schedule,
                      parole: int, toolsOn: bool)
    requires st.Valid() && j < |script| && Declined(script, j + 1) <= |times| && script[j].Says? && script[j].calls != []
    ensures Declined(script, j) <= |times|
    ensures var a, b := AskAt(first, script, j, st, times, parole, toolsOn), AskAt(first, script, j + 1, st, times, parole, toolsOn);
            var n := |a.messages|;
            && b.model == a.model && n < |b.messages| && b.messages[..n] == a.messages
            && Makes(b.messages[n], script[j].content, script[j].calls) && Yields(b.messages[n + 1..], script[j].calls)
  {
    NextTurn(first, script, j);
    var was, round := first + Live(script, j), Round(script[j].content, script[j].calls);
    RoundIs(script[j].content, script[j].calls);
    hide After, Round, Live, Declined, Called, Makes, Yields, ToolRounds;
    assert (was + round)[..|was|] == was && (was + round)[|was|] == round[0] && (was + round)[|was| + 1..] == round[1..];
  }

  lemma FirstTurn(first: seq<Message>, script: seq<Completion>)
    ensures Declined(script, 0) == 0 && ToolRounds(script, 0) == 0
    ensures first + Live(script, 0) == first
    ensures Called(script, 0) == [] && Kept([]) == [] && Ids.Stored(ProviderIds([])) == []
  {
  }

  lemma NextTurn(first: seq<Message>, script: seq<Completion>, k: nat)
    requires k < |script| && script[k].Says?
    ensures Declined(script, k + 1) == Declined(script, k) + if script[k].calls == [] then 1 else 0
    ensures ToolRounds(script, k + 1) == ToolRounds(script, k) + if script[k].calls == [] then 0 else 1
    ensures first + Live(script, k + 1) == first + Live(script, k) + Round(script[k].content, script[k].calls)
    ensures Called(script, k + 1) == Called(script, k) + script[k].calls
    ensures script[k].calls == [] ==> Called(script, k + 1) == Called(script, k) && Round(script[k].content, []) == []
  {
  }

  /** Every request up to the last one is as the script makes it. */
  ghost predicate AsksOk(asks: seq<Ask>, first: seq<Message>, script: seq<Completion>, st: Rotations.State,
                         times: Schedule, parole: int, toolsOn: bool)
    requires st.Valid()
  {
    && |asks| <= |script| + 1
    && forall j :: 0 <= j < |asks| ==>
         Declined(script, j) < |times| && asks[j] == AskAt(first, script, j, st, times, parole, toolsOn)
  }

  /** Chat's loop. */
  method Converse(chatters: Rotation<string>, first: seq<Message>, toolsOn: bool, script: seq<Completion>, times: Schedule)
    returns (reply: Option<string>, calls: seq<ToolCall>, ghost asks: seq<Ask>)
    requires chatters.Valid() && |times| == |chatters.values|
    modifies chatters, chatters.slots
    ensures chatters.Valid()
    ensures |asks| == Stop(script, 0, |times|) + 1
    ensures AsksOk(asks, first, script, old(chatters.View()), times, chatters.policy.parole, toolsOn)
    ensures var k := Stop(script, 0, |times|);
            && reply == (if Nth(script, k).Says? then Some(TrimSpace(Nth(script, k).content)) else None)
            && calls == Kept(Called(script, k))
            && chatters.View() == After(old(chatters.View()), times, chatters.policy.parole, Declined(script, k))
  {
    hide After, Kept, Ids.Stored, Round, Stop, AskAt, TrimSpace, Failed, Declined, ToolRounds, Live, Called;
    ghost var view, parole := chatters.View(), chatters.policy.parole;
    var models := chatters.Len();
    var entry := chatters.Current();
    var messages := first;
    calls := [];
    var ids: set<string> := {};
    var rounds, toolRounds, asked := 0, 0, 1;
    asks := [];
    AfterNone(view, times, parole);
    FirstTurn(first, script);
    while true
      invariant rounds <= |script| && chatters.Valid()
      invariant Stop(script, 0, models) == Stop(script, rounds, models)
      invariant toolRounds == ToolRounds(script, rounds)
      invariant asked == Declined(script, rounds) + 1 <= models
      invariant chatters.View() == After(view, times, parole, asked - 1) && entry.index == chatters.View().selected
      invariant messages == first + Live(script, rounds)
      invariant calls == Kept(Called(script, rounds))
      invariant forall id :: id in ids <==> id in Ids.Stored(ProviderIds(Called(script, rounds)))
      invariant |asks| == rounds && AsksOk(asks, first, script, view, times, parole, toolsOn)
      decreases |script| - rounds
    {
      AsksAs(first, script, rounds, view, times, parole, toolsOn);
      asks := asks + [Ask(entry.index, messages, toolsOn && toolRounds < MAX_TOOL_ROUNDS)];
      StopStep(script, rounds, models);
      var completion := Nth(script, rounds);
      if !completion.Says? {
        return None, calls, asks;
      }
      if completion.calls == [] {
        var text := TrimSpace(completion.content);
        if text != "" || asked == models {
          return Some(text), calls, asks;
        }
        chatters.Fail(entry, times[asked - 1].0, times[asked - 1].1);
        AfterOneMore(view, times, parole, asked);
        entry := chatters.Current();
        asked := asked + 1;
      } else {
        toolRounds := toolRounds + 1;
        messages, calls, ids :=
          CallTools(messages, completion.content, completion.calls, calls, ids, Called(script, rounds));
      }
      NextTurn(first, script, rounds);
      rounds := rounds + 1;
    }
  }

  /** Chat, for a source whose history is at hand. The script is how each completion request would end,
      times the clock readings of each decline, now the time the reply is stored. */
  method Chat(chatters: Rotation<string>, history: ShortTermMemory, system: Option<string>, notes: seq<Memory>,
              toolsOn: bool, script: seq<Completion>, times: Schedule, now: Time)
    returns (reply: Option<string>, ghost asks: seq<Ask>, ghost ordered: seq<Memory>)
    requires chatters.Valid() && history.Valid() && |times| == |chatters.values|
    modifies chatters, chatters.slots, history.memories, history.memories.slots
    ensures chatters.Valid() && history.Valid()
    // which requests were made: of which model, with which messages, offering tools or not
    ensures OldestFirst(ordered) && multiset(ordered) == multiset(old(history.Held()))
    ensures |asks| == Stop(script, 0, |times|) + 1
    ensures AsksOk(asks, MessagesOf(system, notes, ordered), script, old(chatters.View()), times,
                   chatters.policy.parole, toolsOn)
    // and the API accepts every one of them
    ensures forall j :: 0 <= j < |asks| ==> WellFormed(asks[j].messages)
    // what the caller gets, what is remembered, who was benched
    ensures var k := Stop(script, 0, |times|);
            && reply == (if Nth(script, k).Says? then Some(TrimSpace(Nth(script, k).content)) else None)
            && history.Held() == Remembered(old(history.Held()), history.memories.capacity, script, k, now)
            && chatters.View() == After(old(chatters.View()), times, chatters.policy.parole, Declined(script, k))
  {
    hide After, MessagesOf, WellFormed, Ids.Stored, Stop, OldestFirst, TrimSpace, AskAt, Declined, Called, Live, ToolRounds;
    ghost var view := chatters.View();
    var past := history.Ordered();
    ordered := past;
    var messages := Messages(system, notes, past);
    var calls;
    reply, calls, asks := Converse(chatters, messages, toolsOn, script, times);
    forall j | 0 <= j < |asks| ensures WellFormed(asks[j].messages) {
      AsksAs(messages, script, j, view, times, chatters.policy.parole, toolsOn);
      LiveWellFormed(messages, script, j);
    }
    if reply.Some? && (reply.value != "" || |calls| != 0) {
      var _, _ := history.Store(Memory(now, [], reply.value, Self, calls));
    }
  }

  // ---- what the loop promises ----------------------------------------------------

  /** The rounds of tools a chat offers. */
  function Offered(toolsOn: bool): nat {
    if toolsOn then MAX_TOOL_ROUNDS else 0
  }

  /** Tool rounds among the first k completions that were called with no tools on offer. */
  function Unoffered(script: seq<Completion>, toolsOn: bool, k: nat): nat
    requires k <= |script|
  {
    if k == 0 then 0
    else
      Unoffered(script, toolsOn, k - 1) +
      if script[k - 1].Says? && script[k - 1].calls != [] && ToolRounds(script, k - 1) >= Offered(toolsOn) then 1 else 0
  }

  /** The rounds that count are the ones whose request offered no tools. */
  lemma UnofferedExactly(first: seq<Message>, script: seq<Completion>, j: nat, st: Rotations.State, times: Schedule,
                         parole: int, toolsOn: bool)
    requires st.Valid() && j < |script| && Declined(script, j) <= |times|
    ensures Unoffered(script, toolsOn, j + 1) == Unoffered(script, toolsOn, j) +
            if script[j].Says? && script[j].calls != [] && !AskAt(first, script, j, st, times, parole, toolsOn).offered then 1 else 0
  {
    hide After;
  }

  /** The loop goes on after each of the first k completions. */
  predicate GoesOnTo(script: seq<Completion>, models: nat, k: nat)
    requires k <= |script|
  {
    k == 0 || (GoesOnTo(script, models, k - 1) && GoesOn(script[k - 1], Declined(script, k - 1), models))
  }

  lemma {:induction false} GoesOnToTheStop(script: seq<Completion>, k: nat, models: nat)
    requires k <= |script| && GoesOnTo(script, models, k)
    ensures GoesOnTo(script, models, Stop(script, k, models))
    decreases |script| - k
  {
    if k < |script| && GoesOn(script[k], Declined(script, k), models) {
      GoesOnToTheStop(script, k + 1, models);
    }
  }

  lemma {:induction false} RoundsAndDeclines(script: seq<Completion>, toolsOn: bool, models: nat, k: nat)
    requires 0 < models && k <= |script| && GoesOnTo(script, models, k)
    ensures k == ToolRounds(script, k) + Declined(script, k) && Declined(script, k) < models
    ensures Unoffered(script, toolsOn, k) ==
            if ToolRounds(script, k) <= Offered(toolsOn) then 0 else ToolRounds(script, k) - Offered(toolsOn)
  {
    hide TrimSpace, Offered;
    if k > 0 {
      RoundsAndDeclines(script, toolsOn, models, k - 1);
    }
  }

  /** Tools and failover share one loop. It goes on for one request per model that declines and one per round
      of tools, and all but the offered rounds are ones that no tools were offered for. */
  lemma RequestsCount(script: seq<Completion>, toolsOn: bool, models: nat)
    requires 0 < models
    ensures var k := Stop(script, 0, models);
            && k == ToolRounds(script, k) + Declined(script, k) && Declined(script, k) < models
            && Unoffered(script, toolsOn, k) ==
               if ToolRounds(script, k) <= Offered(toolsOn) then 0 else ToolRounds(script, k) - Offered(toolsOn)
  {
    GoesOnToTheStop(script, 0, models);
    RoundsAndDeclines(script, toolsOn, models, Stop(script, 0, models));
  }

  /** Some rounds of tools, then every model but one declines. */
  function LongChat(rounds: nat, models: nat, call: ToolCall): (script: seq<Completion>)
    requires 0 < models
    ensures |script| == rounds + models - 1
  {
    seq(rounds + models - 1, j => if j < rounds then Says("", [call]) else Says("", []))
  }

  lemma {:induction false} LongChatGoesOn(rounds: nat, models: nat, call: ToolCall, k: nat)
    requires 0 < models && k <= rounds + models - 1
    ensures var script := LongChat(rounds, models, call);
            GoesOnTo(script, models, k) && Declined(script, k) == if k <= rounds then 0 else k - rounds
  {
    if k > 0 {
      LongChatGoesOn(rounds, models, call, k - 1);
    }
  }

  lemma {:induction false} StopsNoEarlier(script: seq<Completion>, k: nat, at: nat, models: nat)
    requires k <= at <= |script| && GoesOnTo(script, models, at)
    ensures Stop(script, k, models) >= at && GoesOnTo(script, models, k)
    decreases at - k
  {
    if k < at {
      StopsNoEarlier(script, k + 1, at, models);
    }
  }

  lemma LongChatStops(toolsOn: bool, models: nat, call: ToolCall, u: nat) returns (script: seq<Completion>)
    requires 0 < models
    ensures Unoffered(script, toolsOn, Stop(script, 0, models)) == u
    ensures Stop(script, 0, models) + 1 == models + Offered(toolsOn) + u
  {
    hide *;
    var rounds := Offered(toolsOn) + u;
    script := LongChat(rounds, models, call);
    LongChatGoesOn(rounds, models, call, |script|);
    StopsNoEarlier(script, 0, |script|, models);
    RequestsCount(script, toolsOn, models);
  }

  /** For every u: a bound on the requests of a chat holds for all scripts with at most u tool rounds that
      were not offered exactly when it allows one request per model, the offered rounds and u more. */
  lemma RequestsAreBoundedExactly(toolsOn: bool, models: nat, call: ToolCall, u: nat, bound: nat)
    requires 0 < models
    ensures (forall script :: Unoffered(script, toolsOn, Stop(script, 0, models)) <= u ==> Stop(script, 0, models) + 1 <= bound)
            <==> models + Offered(toolsOn) + u <= bound
  {
    hide *;
    var longest := LongChatStops(toolsOn, models, call, u);
    forall script | Unoffered(script, toolsOn, Stop(script, 0, models)) <= u
      ensures Stop(script, 0, models) + 1 <= models + Offered(toolsOn) + u
    {
      RequestsCount(script, toolsOn, models);
    }
  }

  /** A model that was offered no tools calls none. */
  predicate CallsOnlyWhenOffered(script: seq<Completion>, toolsOn: bool) {
    forall j :: 0 <= j < |script| && script[j].Says? && script[j].calls != [] ==> ToolRounds(script, j) < Offered(toolsOn)
  }

  lemma {:induction false} NoneUnoffered(script: seq<Completion>, toolsOn: bool, k: nat)
    requires CallsOnlyWhenOffered(script, toolsOn) && k <= |script|
    ensures Unoffered(script, toolsOn, k) == 0
  {
    if k > 0 {
      NoneUnoffered(script, toolsOn, k - 1);
    }
  }

  /** So a chat whose models call tools only when offered them makes at most one request per model and the
      rounds of tools. */
  lemma RequestsAreBounded(script: seq<Completion>, toolsOn: bool, models: nat)
    requires CallsOnlyWhenOffered(script, toolsOn) && 0 < models
    ensures Stop(script, 0, models) + 1 <= models + Offered(toolsOn)
  {
    NoneUnoffered(script, toolsOn, Stop(script, 0, models));
    RequestsCount(script, toolsOn, models);
  }

  /** A lone caller whose declines come in time asks a different model each time one declines. */
  lemma {:induction false} DeclinesAskNewModels(st: Rotations.State, start: Time, times: Schedule, parole: int, script: seq<Completion>, i: nat, j: nat)
    requires st.Valid() && Advancing(start, times) && |times| == |st.slots|
    requires forall s :: 0 <= s < |st.slots| ==> st.slots[s].benched <= start
    requires InTime(|times|, start, times, parole)
    requires i < j <= |script| && Declined(script, i) < Declined(script, j) < |times|
    ensures After(st, times, parole, Declined(script, i)).selected != After(st, times, parole, Declined(script, j)).selected
  {
    hide After;
    InTimeMeansDistinct(st, start, times, parole);
    var tries := Tries(st, times, parole);
    assert tries[Declined(script, i)] != tries[Declined(script, j)];
  }

  lemma {:induction false} LiveTells(script: seq<Completion>, k: nat, rest: seq<Message>)
    requires k <= |script|
    ensures Told(Live(script, k) + rest) == Deeds(Called(script, k)) + Told(rest)
  {
    hide Told, Round;
    if k == 0 {
      assert [] + rest == rest;
    } else {
      var turn := if script[k - 1].Says? then script[k - 1].calls else [];
      var round := if script[k - 1].Says? then Round(script[k - 1].content, turn) else [];
      LiveTells(script, k - 1, round + rest);
      assert Live(script, k) + rest == Live(script, k - 1) + (round + rest);
      assert Deeds(Called(script, k)) == Deeds(Called(script, k - 1)) + Deeds(turn);
      if script[k - 1].Says? {
        RoundTells(script[k - 1].content, turn, rest);
      } else {
        assert round + rest == rest && Deeds(turn) + Told(rest) == Told(rest);
      }
    }
  }

  /** The round trip through the history: a reply read back from memory tells a later model the very
      calls, arguments and results, in the order they were executed in the live conversation. */
  lemma MemoryTellsWhatHappened(script: seq<Completion>, k: nat, text: string, now: Time)
    requires k <= |script|
    ensures Told(Expand(Reply(text, Called(script, k), now))) == Deeds(Called(script, k))
    ensures Told(Live(script, k)) == Deeds(Called(script, k))
  {
    var calls := Called(script, k);
    LiveTells(script, k, []);
    assert Live(script, k) + [] == Live(script, k);
    RoundTells("", Kept(calls), [Assistant(text)]);
    assert Deeds(Kept(calls)) == Deeds(calls);
    assert Told([Assistant(text)]) == [];
  }
}
